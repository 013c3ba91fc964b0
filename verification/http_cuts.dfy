// A chunked body in two buffers, wherever the first one ends: which cuts the decoder of
// Http::write survives.
module HttpCuts {
  import opened Words
  import opened HttpChunk

  // ---------------------------------------------------------------- a size line, read or kept

  // The state behind the size line data[p..e].
  function AfterLine(s: State, data: seq<byte>, p: nat, e: nat): State
    requires p < e < |data|
  {
    var header := if s.chunkHeader == [] then [] else s.chunkHeader + data[..e - 1];
    var n := ChunkSize(if s.chunkHeader == [] then data[p..e] else header);
    s.(chunkHeader := header, chunkLength := n, ended := n == 0)
  }

  // The rest of a buffer that starts with a size line and its CR LF.
  lemma ReadLine(s: State, data: seq<byte>, stale: byte, p: nat, e: nat)
    requires !s.ended && s.chunkLength < 0 && p < e && e + 2 <= |data| && NoBreak(data[p..e])
    requires data[e] == CR && data[e + 1] == LF
    ensures Decode(s, data, stale, p) == Decode(AfterLine(s, data, p, e), data, stale, e + 2)
  {
    hide ChunkSize;
    assert data[p] == data[p..e][0];
    LineEndIs(data, p, e);
    assert PassBreak(data, stale, e) == e + 2;
  }

  // A buffer that ends in a size line, or behind the line's CR.
  lemma KeepLine(s: State, data: seq<byte>, stale: byte, p: nat)
    requires Between(s) && p < |data| && NoBreak(data[p..])
    ensures Decode(s, data, stale, p) == s.(chunkHeader := data[p..])
  {
    hide ChunkSize;
    assert data[p] == data[p..][0];
    NoBreakBehind(data, p);
  }

  lemma {:induction false} NoBreakBehind(data: seq<byte>, pos: nat)
    requires pos <= |data| && NoBreak(data[pos..])
    ensures LineEnd(data, pos) == |data|
    decreases |data| - pos
  {
    if pos < |data| {
      assert data[pos] == data[pos..][0] && data[pos + 1..] == data[pos..][1..];
      NoBreakBehind(data, pos + 1);
    }
  }

  lemma CutInBreak(s: State, data: seq<byte>, stale: byte, p: nat, e: nat)
    requires Between(s) && p < e && e + 1 == |data| && NoBreak(data[p..e]) && data[e] == CR
    ensures Decode(s, data, stale, p) == AfterLine(s, data, p, e)
  {
    hide ChunkSize;
    assert data[p] == data[p..e][0];
    LineEndIs(data, p, e);
    var t := AfterLine(s, data, p, e);
    NothingLeft(t, data, stale, PassBreak(data, stale, e));
  }

  // A line break at the start of a buffer, or at its end, is passed over.
  lemma PassOver(s: State, data: seq<byte>, stale: byte, p: nat)
    requires !s.ended && s.chunkLength < 0 && p < |data| && IsBreak(data[p])
    ensures Decode(s, data, stale, p) == Decode(s, data, stale, PassBreak(data, stale, p))
  {
    hide ChunkSize, LineEnd;
    var q := PassBreak(data, stale, p);
    assert SkipBreaks(data, stale, p) == SkipBreaks(data, stale, q);
    if q >= |data| {
      assert SkipBreaks(data, stale, q) == q;
    }
  }

  // ---------------------------------------------------------------- what a decoder never undoes

  // The cache is only appended to.
  lemma {:induction false} WrittenGrows(s: State, data: seq<byte>, stale: byte, pos: nat)
    ensures s.written <= Decode(s, data, stale, pos).written
    decreases |data| - pos
  {
    hide ChunkSize, LineEnd, SkipBreaks;
    if pos < |data| && !s.ended {
      if 0 < s.chunkLength <= |data| - pos {
        var next := pos + s.chunkLength;
        WrittenGrows(s.(chunkLength := -1, written := s.written + data[pos..next],
                        contentwritten := s.contentwritten + s.chunkLength), data, stale, next);
      } else if s.chunkLength <= 0 {
        var p := SkipBreaks(data, stale, pos);
        if p < |data| && LineEnd(data, p) < |data| {
          var e := LineEnd(data, p);
          assert e > p;
          WrittenGrows(AfterLine(s, data, p, e), data, stale, PassBreak(data, stale, e));
        }
      }
    }
  }

  // A number that has begun does not become zero by going on.
  lemma {:induction false} DigitsGrow(s: seq<byte>, more: seq<byte>, v: nat)
    ensures Digits(s + more, v) >= Digits(s, v) >= v
  {
    if s != [] && Digit(s[0]) >= 0 {
      assert (s + more)[1..] == s[1..] + more;
      DigitsGrow(s[1..], more, v * 16 + Digit(s[0]));
    }
  }

  lemma {:induction false} SpacesKeep(s: seq<byte>, more: seq<byte>)
    requires SkipSpaces(s) != []
    ensures SkipSpaces(s + more) == SkipSpaces(s) + more
  {
    if IsSpace(s[0]) {
      assert (s + more)[1..] == s[1..] + more;
      SpacesKeep(s[1..], more);
    }
  }

  lemma SizeStaysPositive(line: seq<byte>, more: seq<byte>)
    requires ChunkSize(line) != 0
    ensures ChunkSize(line + more) != 0
  {
    hide Digits, SkipSpaces;
    var t := SkipSpaces(line);
    assert t != [] by { DigitsOfNothing(); }
    SpacesKeep(line, more);
    var signed := t[0] == 43 || t[0] == 45;
    var u := if signed then t[1..] else t;
    assert (if signed then (t + more)[1..] else t + more) == u + more;
    PrefixKeeps(u, more);
    DigitsGrow(SkipPrefix(u), more, 0);
  }

  lemma DigitsOfNothing()
    ensures Digits([], 0) == 0 && SkipPrefix([]) == []
  {
  }

  lemma PrefixKeeps(u: seq<byte>, more: seq<byte>)
    requires Digits(SkipPrefix(u), 0) != 0
    ensures SkipPrefix(u + more) == SkipPrefix(u) + more
  {
  }

  // A number is in the size line that the decoder keeps, and goes on keeping.
  ghost predicate Spoilt(s: State) {
    !s.ended && s.chunkHeader != [] && ChunkSize(s.chunkHeader) != 0 && s.chunkLength != 0
  }

  // A kept part of a size line spoils every later size line: with a positive number in it,
  // none of them reads as the last chunk's.
  lemma {:induction false} NeverEnds(s: State, data: seq<byte>, stale: byte, pos: nat)
    requires Spoilt(s)
    ensures Spoilt(Decode(s, data, stale, pos))
    decreases |data| - pos
  {
    hide ChunkSize, LineEnd, SkipBreaks;
    if pos < |data| {
      if 0 < s.chunkLength <= |data| - pos {
        var next := pos + s.chunkLength;
        NeverEnds(s.(chunkLength := -1, written := s.written + data[pos..next],
                     contentwritten := s.contentwritten + s.chunkLength), data, stale, next);
      } else if s.chunkLength < 0 {
        var p := SkipBreaks(data, stale, pos);
        if p < |data| && LineEnd(data, p) < |data| {
          var e := LineEnd(data, p);
          assert e > p;
          SizeStaysPositive(s.chunkHeader, data[..e - 1]);
          NeverEnds(AfterLine(s, data, p, e), data, stale, PassBreak(data, stale, e));
        }
      }
    }
  }

  // ---------------------------------------------------------------- bytes taken for a size line

  // A text that is its own rest behind two bytes repeats those two.
  lemma {:induction false} Repeats(d: seq<byte>, n: nat)
    requires n + 2 <= |d| && forall i :: 0 <= i < n ==> d[i] == d[i + 2]
    ensures d[0] == d[n] || d[0] == d[n + 1]
    decreases n
  {
    if n >= 2 {
      Repeats(d, n - 2);
    } else if n == 1 {
      assert d[0] == d[2];
    }
  }

  // A decoder that waits for a size line does not take a text that ends in CR LF for the
  // bytes before them, whatever the text is.
  lemma RestLost(s: State, data: seq<byte>, stale: byte, pos: nat, rest: seq<byte>)
    requires !s.ended && s.chunkLength < 0 && rest != []
    requires pos <= |data| && data[pos..] == rest + [CR, LF]
    ensures Decode(s, data, stale, pos).written != s.written + rest
  {
    hide ChunkSize, LineEnd;
    var p := SkipBreaks(data, stale, pos);
    assert data[pos..][0] == data[pos];
    if p < |data| && LineEnd(data, p) < |data| {
      var e := LineEnd(data, p);
      assert e > p;
      LineLost(AfterLine(s, data, p, e), data, stale, pos, PassBreak(data, stale, e), rest);
    }
  }

  lemma LineLost(t: State, data: seq<byte>, stale: byte, pos: nat, q: nat, rest: seq<byte>)
    requires rest != [] && pos + 2 <= q && pos <= |data| && data[pos..] == rest + [CR, LF]
    requires q == pos + 2 ==> !IsBreak(data[pos])
    ensures Decode(t, data, stale, q).written != t.written + rest
  {
    hide ChunkSize, LineEnd, SkipBreaks, Header;
    DecodeBound(t, data, stale, q);
    if q == pos + 2 && !t.ended && t.chunkLength > 0 {
      if t.chunkLength < |data| - q {
        var next := q + t.chunkLength;
        DecodeBound(t.(chunkLength := -1, written := t.written + data[q..next],
                       contentwritten := t.contentwritten + t.chunkLength), data, stale, next);
      } else {
        var u := Decode(t, data, stale, q);
        assert u.written == t.written + data[q..] by {
          if t.chunkLength == |data| - q {
            assert data[q..|data|] == data[q..];
          }
        }
        if u.written == t.written + rest {
          assert u.written[|t.written|..] == rest == data[q..];
          var d := data[pos..];
          assert d[2..] == data[q..] == rest;
          forall i | 0 <= i < |rest| ensures d[i] == d[i + 2] {
            assert d[2..][i] == rest[i] == d[i];
          }
          Repeats(d, |rest|);
        }
      }
    }
  }

  // ---------------------------------------------------------------- one chunk, cut anywhere

  function ChunkText(c: Chunk): (r: seq<byte>)
    ensures |r| == |c.line| + |c.body| + 4
  {
    c.line + [CR, LF] + c.body + [CR, LF]
  }

  predicate AllFeeds(s: seq<byte>) {
    forall i :: 0 <= i < |s| ==> s[i] == LF
  }

  // What a buffer leaves that ends behind the first n bytes of a chunk.
  function Cut(s: State, c: Chunk, n: nat, size: nat): State
    requires n <= |c.line| + |c.body| + 4
  {
    var start := |c.line| + 2;
    if n == 0 then s
    else if n <= |c.line| then s.(chunkHeader := c.line[..n])
    else if n <= start then s.(chunkLength := |c.body|)
    else if n < start + |c.body| then
      s.(chunkLength := -1, written := s.written + c.body[..n - start], contentwritten := s.contentwritten + size)
    else s.(chunkLength := -1, written := s.written + c.body, contentwritten := s.contentwritten + |c.body|)
  }

  lemma ChunkParts(c: Chunk)
    ensures var l, m, text := |c.line|, |c.body|, ChunkText(c);
      && text[..l] == c.line && text[l] == CR && text[l + 1] == LF
      && text[l + 2..l + 2 + m] == c.body && text[l + 2 + m] == CR && text[l + 3 + m] == LF
  {
  }

  // A stretch of a text that lies in a buffer.
  lemma StretchAt(data: seq<byte>, pos: nat, text: seq<byte>, a: nat, b: nat, k: nat)
    requires a <= k < b <= |text| && pos + b <= |data| + a && data[pos..pos + b - a] == text[a..b]
    ensures data[pos + k - a] == text[k]
  {
    assert data[pos + k - a] == data[pos..pos + b - a][k - a] == text[a..b][k - a] == text[k];
  }

  lemma Stretch(data: seq<byte>, pos: nat, text: seq<byte>, a: nat, b: nat, i: nat, j: nat)
    requires a <= i <= j <= b <= |text| && pos + b <= |data| + a && data[pos..pos + b - a] == text[a..b]
    ensures data[pos + i - a..pos + j - a] == text[i..j]
  {
    var d, t := data[pos + i - a..pos + j - a], text[i..j];
    forall k | 0 <= k < j - i ensures d[k] == t[k] {
      StretchAt(data, pos, text, a, b, i + k);
    }
  }

  lemma CutLeaves(s: State, data: seq<byte>, stale: byte, pos: nat, c: Chunk, n: nat)
    requires Between(s) && ChunkOk(c) && n <= |ChunkText(c)|
    requires pos <= |data| && data[pos..] == ChunkText(c)[..n]
    ensures Decode(s, data, stale, pos) == Cut(s, c, n, |data|)
  {
    hide ChunkSize, Decode, Header, ChunkText;
    var l, text := |c.line|, ChunkText(c);
    ChunkParts(c);
    assert data[pos..pos + n - 0] == text[0..n];
    if n == 0 {
      NothingLeft(s, data, stale, pos);
    } else if n <= l {
      assert data[pos..] == text[..l][..n] == c.line[..n];
      KeepLine(s, data, stale, pos);
    } else {
      Stretch(data, pos, text, 0, n, 0, l);
      StretchAt(data, pos, text, 0, n, l);
      if n == l + 1 {
        CutInBreak(s, data, stale, pos, pos + l);
      } else {
        StretchAt(data, pos, text, 0, n, l + 1);
        ReadLine(s, data, stale, pos, pos + l);
        Stretch(data, pos, text, 0, n, l + 2, n);
        CutBehindLine(s.(chunkLength := |c.body|), data, stale, pos + l + 2, c, n);
      }
    }
  }

  lemma CutBehindLine(t: State, data: seq<byte>, stale: byte, q: nat, c: Chunk, n: nat)
    requires !t.ended && t.chunkLength == |c.body| > 0 && t.chunkHeader == []
    requires |c.line| + 2 <= n <= |ChunkText(c)| && q + n == |data| + |c.line| + 2
    requires data[q..] == ChunkText(c)[|c.line| + 2..n]
    ensures Decode(t, data, stale, q) == Cut(t, c, n, |data|)
  {
    hide ChunkSize, Decode, Header, ChunkText;
    var l, m, text := |c.line| + 2, |c.body|, ChunkText(c);
    var k := n - l;
    ChunkParts(c);
    assert data[q..q + n - l] == text[l..n];
    if k == 0 {
      NothingLeft(t, data, stale, q);
    } else if k < m {
      assert data[q..] == text[l..l + m][..k] == c.body[..k];
      AllTaken(t, data, stale, q);
    } else {
      Stretch(data, q, text, l, n, l, l + m);
      TakeBody(t, data, stale, q, c.body);
      var u := Done(t, c.body);
      if k == m {
        NothingLeft(u, data, stale, q + m);
      } else {
        StretchAt(data, q, text, l, n, l + m);
        if k > m + 1 { StretchAt(data, q, text, l, n, l + m + 1); }
        PassOver(u, data, stale, q + m);
        NothingLeft(u, data, stale, PassBreak(data, stale, q + m));
      }
    }
  }

  // The body of a chunk whose size has been read, and the break behind it.
  lemma TakeBody(t: State, data: seq<byte>, stale: byte, q: nat, body: seq<byte>)
    requires !t.ended && t.chunkLength == |body| > 0 && q + |body| <= |data| && data[q..q + |body|] == body
    ensures Decode(t, data, stale, q) == Decode(Done(t, body), data, stale, q + |body|)
  {
    hide Header;
  }

  lemma BodyAndBreak(t: State, data: seq<byte>, stale: byte, q: nat, body: seq<byte>)
    requires !t.ended && t.chunkLength == |body| > 0 && q + |body| + 2 <= |data|
    requires data[q..q + |body|] == body && data[q + |body|] == CR && data[q + |body| + 1] == LF
    ensures Decode(t, data, stale, q) == Decode(Done(t, body), data, stale, q + |body| + 2)
  {
    hide ChunkSize, Decode, Header;
    TakeBody(t, data, stale, q, body);
    PassOver(Done(t, body), data, stale, q + |body|);
  }

  function Done(s: State, body: seq<byte>): State {
    s.(chunkLength := -1, written := s.written + body, contentwritten := s.contentwritten + |body|)
  }

  // The cuts behind which the decoder is in step with the coding.
  predicate InStep(c: Chunk, n: nat) {
    || n == 0
    || (n == |c.line| + 1 && AllFeeds(c.body))
    || n == |c.line| + 2
    || n >= |c.line| + 2 + |c.body|
  }

  lemma Resume(s: State, data: seq<byte>, stale: byte, c: Chunk, n: nat, size: nat)
    requires Between(s) && ChunkOk(c) && n <= |ChunkText(c)| && InStep(c, n)
    requires |ChunkText(c)| - n <= |data| && data[..|ChunkText(c)| - n] == ChunkText(c)[n..]
    ensures var k := |ChunkText(c)| - n;
      if n == |ChunkText(c)| then Cut(s, c, n, size) == Done(s, c.body)
      else Decode(Cut(s, c, n, size), data, stale, 0) == Decode(Done(s, c.body), data, stale, k)
  {
    hide ChunkSize, Decode, Header, ChunkText;
    var l, m, text := |c.line|, |c.body|, ChunkText(c);
    ChunkParts(c);
    assert data[0..0 + |text| - n] == data[..|text| - n] == text[n..|text|];
    if n == 0 {
      WholeChunk(s, data, stale, 0, c);
    } else if n == l + 1 {
      ResumeAtFeed(s, data, stale, c);
    } else if n == l + 2 {
      ResumeAtBody(s, data, stale, c);
    } else if n < |text| {
      StretchAt(data, 0, text, n, |text|, n);
      StretchAt(data, 0, text, n, |text|, |text| - 1);
      PassOver(Done(s, c.body), data, stale, 0);
    }
  }

  lemma ResumeAtFeed(s: State, data: seq<byte>, stale: byte, c: Chunk)
    requires Between(s) && ChunkOk(c) && AllFeeds(c.body)
    requires |c.body| + 3 <= |data| && data[..|c.body| + 3] == ChunkText(c)[|c.line| + 1..]
    ensures Decode(s.(chunkLength := |c.body|), data, stale, 0) == Decode(Done(s, c.body), data, stale, |c.body| + 3)
  {
    hide ChunkSize, Decode, Header, ChunkText;
    var n, m, text := |c.line| + 1, |c.body|, ChunkText(c);
    ChunkParts(c);
    assert data[0..0 + |text| - n] == text[n..|text|];
    Stretch(data, 0, text, n, |text|, n + 1, n + 1 + m);
    StretchAt(data, 0, text, n, |text|, n);
    StretchAt(data, 0, text, n, |text|, n + 1 + m);
    StretchAt(data, 0, text, n, |text|, n + 2 + m);
    FeedsTaken(s, data, stale, c);
  }

  lemma ResumeAtBody(s: State, data: seq<byte>, stale: byte, c: Chunk)
    requires Between(s) && ChunkOk(c)
    requires |c.body| + 2 <= |data| && data[..|c.body| + 2] == ChunkText(c)[|c.line| + 2..]
    ensures Decode(s.(chunkLength := |c.body|), data, stale, 0) == Decode(Done(s, c.body), data, stale, |c.body| + 2)
  {
    hide ChunkSize, Decode, Header, ChunkText;
    var n, m, text := |c.line| + 2, |c.body|, ChunkText(c);
    ChunkParts(c);
    assert data[0..0 + |text| - n] == text[n..|text|];
    Stretch(data, 0, text, n, |text|, n, n + m);
    StretchAt(data, 0, text, n, |text|, n + m);
    StretchAt(data, 0, text, n, |text|, n + m + 1);
    BodyAndBreak(s.(chunkLength := m), data, stale, 0, c.body);
  }

  lemma WholeChunk(s: State, data: seq<byte>, stale: byte, pos: nat, c: Chunk)
    requires Between(s) && ChunkOk(c) && pos + |ChunkText(c)| <= |data|
    requires data[pos..pos + |ChunkText(c)|] == ChunkText(c)
    ensures Decode(s, data, stale, pos) == Decode(Done(s, c.body), data, stale, pos + |ChunkText(c)|)
  {
    hide ChunkSize, Decode, Header, ChunkText;
    var l, m, text := |c.line|, |c.body|, ChunkText(c);
    ChunkParts(c);
    assert data[pos..pos + |text| - 0] == text[0..|text|];
    Stretch(data, pos, text, 0, |text|, 0, l);
    Stretch(data, pos, text, 0, |text|, l + 2, l + 2 + m);
    StretchAt(data, pos, text, 0, |text|, l);
    StretchAt(data, pos, text, 0, |text|, l + 1);
    StretchAt(data, pos, text, 0, |text|, l + 2 + m);
    StretchAt(data, pos, text, 0, |text|, l + 3 + m);
    ReadLine(s, data, stale, pos, pos + l);
    BodyAndBreak(s.(chunkLength := m), data, stale, pos + l + 2, c.body);
  }

  // The line feed that was cut off comes first, and one of the body's is passed over instead.
  lemma FeedsTaken(s: State, data: seq<byte>, stale: byte, c: Chunk)
    requires Between(s) && ChunkOk(c) && AllFeeds(c.body) && |c.body| + 3 <= |data|
    requires data[0] == LF && data[1..|c.body| + 1] == c.body
    requires data[|c.body| + 1] == CR && data[|c.body| + 2] == LF
    ensures Decode(s.(chunkLength := |c.body|), data, stale, 0) == Decode(Done(s, c.body), data, stale, |c.body| + 3)
  {
    hide ChunkSize, Decode, Header;
    var m, t := |c.body|, s.(chunkLength := |c.body|);
    assert forall i :: 0 <= i < m ==> data[1 + i] == data[1..m + 1][i] == c.body[i] == LF;
    assert data[0..m] == c.body;
    TakeBody(t, data, stale, 0, c.body);
    PassOver(Done(s, c.body), data, stale, m);
    PassOver(Done(s, c.body), data, stale, m + 1);
  }

  // The body of a cut chunk is in the cache once the chunk's last byte has come, if and only
  // if the cut is one of these.
  predicate ArrivesCut(c: Chunk, n: nat) {
    InStep(c, n) || (0 < n < |c.line| && ChunkSize(c.line[..|c.line| - 1]) == |c.body|)
  }

  // A chunk in two buffers, at the end of the first one: its body arrives, and the decoder is
  // in step again, exactly for these cuts. What lies behind the buffers plays no part.
  lemma CutChunk(s: State, first: seq<byte>, pos: nat, c: Chunk, n: nat, stale: byte, stale2: byte)
    requires Between(s) && ChunkOk(c) && n <= |ChunkText(c)|
    requires pos <= |first| && first[pos..] == ChunkText(c)[..n]
    ensures var t := Decode(s, first, stale, pos);
      var u := Decode(t, ChunkText(c)[n..], stale2, 0);
      && (u.written == s.written + c.body <==> ArrivesCut(c, n))
      && (u.written == s.written + c.body && Between(u) <==> InStep(c, n))
  {
    hide ChunkSize, Decode, Header, ChunkOk;
    var l, text := |c.line|, ChunkText(c);
    var second := text[n..];
    CutLeaves(s, first, stale, pos, c, n);
    var t := Cut(s, c, n, |first|);
    if InStep(c, n) {
      assert second[..|text| - n] == second;
      Resume(s, second, stale2, c, n, |first|);
      NothingLeft(Done(s, c.body), second, stale2, |second|);
      if n == |text| { NothingLeft(t, second, stale2, 0); }
    } else if n < l {
      CutInLine(s, c, n, stale2);
    } else if n == l {
      assert second == [CR, LF] + c.body + [CR, LF] && c.line[..n] == c.line;
      CutBeforeBreak(s, second, stale2, c);
    } else if n == l + 1 {
      CutAtFeed(s, second, stale2, c, []);
    } else {
      var k := n - l - 2;
      assert second[0..] == c.body[k..] + [CR, LF];
      RestLost(t, second, stale2, 0, c.body[k..]);
      assert s.written + c.body[..k] + c.body[k..] == s.written + c.body;
    }
  }

  // A cut inside a size line: the line is read without its last character.
  lemma LineResumed(s: State, data: seq<byte>, stale: byte, line: seq<byte>, n: nat)
    requires Between(s) && NoBreak(line) && 0 < n < |line| && line[n..] + [CR, LF] <= data
    ensures Decode(s.(chunkHeader := line[..n]), data, stale, 0) == Decode(Shortened(s, line), data, stale, |line| - n + 2)
  {
    hide ChunkSize, Header, Decode;
    var t, e, d := s.(chunkHeader := line[..n]), |line| - n, line[n..] + [CR, LF];
    assert data[0..0 + |d| - 0] == d == d[0..|d|];
    Stretch(data, 0, d, 0, |d|, 0, e);
    StretchAt(data, 0, d, 0, |d|, e);
    StretchAt(data, 0, d, 0, |d|, e + 1);
    assert d[0..e] == line[n..];
    ReadLine(t, data, stale, 0, e);
    assert data[..e - 1] == line[n..|line| - 1];
    assert line[..n] + line[n..|line| - 1] == line[..|line| - 1];
  }

  function Shortened(s: State, line: seq<byte>): State
    requires line != []
  {
    var short := line[..|line| - 1];
    s.(chunkHeader := short, chunkLength := ChunkSize(short), ended := ChunkSize(short) == 0)
  }

  lemma CutInLine(s: State, c: Chunk, n: nat, stale: byte)
    requires Between(s) && ChunkOk(c) && 0 < n < |c.line|
    ensures var u := Decode(s.(chunkHeader := c.line[..n]), ChunkText(c)[n..], stale, 0);
      && (u.written == s.written + c.body <==> ChunkSize(c.line[..|c.line| - 1]) == |c.body|)
      && u.chunkHeader != []
  {
    hide ChunkSize, Header, Decode;
    var data, q := ChunkText(c)[n..], |c.line| - n + 2;
    assert data[..q] == c.line[n..] + [CR, LF] && data[q..] == c.body + [CR, LF];
    LineResumed(s, data, stale, c.line, n);
    WrongSize(Shortened(s, c.line), data, stale, q, c.body);
  }

  // A body under a number that need not be its length.
  lemma WrongSize(v: State, data: seq<byte>, stale: byte, q: nat, body: seq<byte>)
    requires v.chunkHeader != [] && body != [] && q <= |data| && data[q..] == body + [CR, LF]
    requires v.ended <==> v.chunkLength == 0
    ensures var u := Decode(v, data, stale, q);
      (u.written == v.written + body <==> v.chunkLength == |body|) && u.chunkHeader != []
  {
    hide ChunkSize, Decode, Header;
    HeaderStays(v, data, stale, q);
    if v.chunkLength < 0 {
      RestLost(v, data, stale, q, body);
    } else if v.chunkLength == 0 {
      NothingLeft(v, data, stale, q);
    } else if v.chunkLength <= |data| - q {
      PartTaken(v, data, stale, q, body, v.chunkLength);
    } else {
      AllTaken(v, data, stale, q);
    }
  }

  lemma AllTaken(v: State, data: seq<byte>, stale: byte, q: nat)
    requires !v.ended && q < |data| && v.chunkLength > |data| - q
    ensures Decode(v, data, stale, q) ==
      v.(chunkLength := -1, written := v.written + data[q..], contentwritten := v.contentwritten + |data|)
  {
  }

  // The first m bytes of a body and its break are taken for the body.
  lemma PartTaken(v: State, data: seq<byte>, stale: byte, q: nat, body: seq<byte>, m: nat)
    requires !v.ended && body != [] && q <= |data| && data[q..] == body + [CR, LF]
    requires 0 < m == v.chunkLength <= |data| - q
    ensures Decode(v, data, stale, q).written == v.written + body <==> m == |body|
  {
    hide ChunkSize, Decode, Header;
    var d := body + [CR, LF];
    assert data[q..q + m] == data[q..][..m] == d[..m] && data[q + m..] == d[m..];
    TakeBody(v, data, stale, q, d[..m]);
    if m < |body| {
      assert d[..m] == body[..m];
      TooLittleTaken(v, data, stale, q, body, m);
    } else if m == |body| {
      assert d[..m] == body;
      BodyTakenOff(v, data, stale, q, body);
    } else {
      WrittenGrows(Done(v, d[..m]), data, stale, q + m);
    }
  }

  lemma TooLittleTaken(v: State, data: seq<byte>, stale: byte, q: nat, body: seq<byte>, m: nat)
    requires !v.ended && q <= |data| && data[q..] == body + [CR, LF] && 0 < m < |body|
    ensures Decode(Done(v, body[..m]), data, stale, q + m).written != v.written + body
  {
    hide ChunkSize, Decode, Header;
    assert data[q + m..] == data[q..][m..] == body[m..] + [CR, LF];
    RestLost(Done(v, body[..m]), data, stale, q + m, body[m..]);
    Regroup(v.written, body[..m], body[m..]);
    assert body[..m] + body[m..] == body;
  }

  lemma BodyTakenOff(v: State, data: seq<byte>, stale: byte, q: nat, body: seq<byte>)
    requires !v.ended && q <= |data| && data[q..] == body + [CR, LF]
    ensures Decode(Done(v, body), data, stale, q + |body|).written == v.written + body
  {
    hide ChunkSize, Decode, Header;
    var m, w := |body|, Done(v, body);
    assert data[q + m..] == data[q..][m..] == [CR, LF];
    assert data[q + m] == data[q + m..][0] && data[q + m + 1] == data[q + m..][1];
    PassOver(w, data, stale, q + m);
    NothingLeft(w, data, stale, q + m + 2);
  }

  lemma {:induction false} HeaderStays(s: State, data: seq<byte>, stale: byte, pos: nat)
    requires s.chunkHeader != []
    ensures Decode(s, data, stale, pos).chunkHeader != []
    decreases |data| - pos
  {
    hide ChunkSize, LineEnd, SkipBreaks;
    if pos < |data| && !s.ended {
      if 0 < s.chunkLength <= |data| - pos {
        var next := pos + s.chunkLength;
        HeaderStays(s.(chunkLength := -1, written := s.written + data[pos..next],
                       contentwritten := s.contentwritten + s.chunkLength), data, stale, next);
      } else if s.chunkLength <= 0 {
        var p := SkipBreaks(data, stale, pos);
        if p < |data| && LineEnd(data, p) < |data| {
          var e := LineEnd(data, p);
          assert e > p;
          HeaderStays(AfterLine(s, data, p, e), data, stale, PassBreak(data, stale, e));
        }
      }
    }
  }

  // A cut behind the size line and before its break: the body is read as a size line.
  lemma CutBeforeBreak(s: State, data: seq<byte>, stale: byte, c: Chunk)
    requires Between(s) && ChunkOk(c) && data == [CR, LF] + c.body + [CR, LF]
    ensures var u := Decode(s.(chunkHeader := c.line), data, stale, 0);
      u.written != s.written + c.body && u.chunkHeader != []
  {
    hide ChunkSize, Header, Decode;
    var t := s.(chunkHeader := c.line);
    PassOver(t, data, stale, 0);
    assert data[2..] == c.body + [CR, LF];
    RestLost(t, data, stale, 2, c.body);
    HeaderStays(t, data, stale, 0);
  }

  // A cut between the line's CR and LF: the LF is taken for the body's first byte.
  lemma CutAtFeed(s: State, data: seq<byte>, stale: byte, c: Chunk, more: seq<byte>)
    requires Between(s) && ChunkOk(c) && !AllFeeds(c.body) && data == [LF] + c.body + [CR, LF] + more
    ensures var u := Decode(s.(chunkLength := |c.body|), data, stale, 0);
      |s.written + c.body| <= |u.written| && u.written[..|s.written + c.body|] != s.written + c.body
  {
    hide ChunkSize, Header;
    var m := |c.body|;
    var t := s.(chunkLength := m);
    var w := Done(s, data[0..m]);
    assert Decode(t, data, stale, 0) == Decode(w, data, stale, m);
    WrittenGrows(w, data, stale, m);
    var u := Decode(w, data, stale, m).written;
    var all := s.written + c.body;
    assert u[..|all|] == w.written;
    if u[..|all|] == all {
      assert data[0..m] == w.written[|s.written|..] == all[|s.written|..] == c.body;
      ShiftedFeeds(c.body, data);
    }
  }

  lemma {:induction false} ShiftedFeeds(body: seq<byte>, data: seq<byte>)
    requires |body| + 1 <= |data| && data[..|body| + 1] == [LF] + body && data[0..|body|] == body
    ensures AllFeeds(body)
  {
    var i := 0;
    while i < |body|
      invariant i <= |body| && forall k :: 0 <= k < i ==> body[k] == LF
    {
      assert body[i] == data[0..|body|][i] == data[..|body| + 1][i] == ([LF] + body)[i];
      i := i + 1;
    }
  }

  // The size lines that a sender writes leave nothing to chance: without its last digit such
  // a line says another size.
  lemma PlainLine(body: seq<byte>, n: nat)
    requires 0 < |body| < 0x8000_0000_0000_0000
    ensures var c := Chunk(HexLine(|body|), body); ChunkOk(c) && (ArrivesCut(c, n) <==> InStep(c, n))
  {
    hide ChunkSize;
    var m := |body|;
    HexLineSize(m);
    var line := HexLine(m);
    if m < 16 {
      assert |line| == 1;
    } else {
      HexLineSize(m / 16);
      assert line[..|line| - 1] == HexLine(m / 16);
    }
  }

  // ---------------------------------------------------------------- a whole body, cut anywhere

  // The last chunk's size line, which starts with a digit.
  ghost predicate LastOk(last: seq<byte>) {
    last != [] && NoBreak(last) && ChunkSize(last) == 0 && Digit(last[0]) >= 0
  }

  function Text(chunks: seq<Chunk>, last: seq<byte>, trailer: seq<Piece>): seq<byte> {
    AllBytes(BodyPieces(chunks, last, trailer))
  }

  // A line that is not empty and has its end.
  ghost predicate LineFollows(s: seq<byte>) {
    exists i, j :: 0 <= i < j < |s| && !IsBreak(s[i]) && IsBreak(s[j])
  }

  // The cuts that a delivery in two buffers survives. One behind the last chunk's "0" is
  // survived only when another line follows.
  ghost predicate Survives(chunks: seq<Chunk>, last: seq<byte>, trailer: seq<Piece>, n: nat) {
    if chunks == [] then n != |last| || LineFollows(AllBytes(trailer))
    else
      var size := |ChunkText(chunks[0])|;
      if n >= size then Survives(chunks[1..], last, trailer, n - size) else InStep(chunks[0], n)
  }

  predicate InBody(chunks: seq<Chunk>, n: nat) {
    chunks != [] &&
    var size, start := |ChunkText(chunks[0])|, |chunks[0].line| + 2;
    if n >= size then InBody(chunks[1..], n - size) else start < n < start + |chunks[0].body|
  }

  lemma {:induction false} JoinedBytes(a: seq<Piece>, b: seq<Piece>)
    ensures AllBytes(a + b) == AllBytes(a) + AllBytes(b)
    decreases |a|
  {
    hide Bytes;
    if a == [] {
      assert a + b == b;
    } else {
      assert (a + b)[0] == a[0] && (a + b)[1..] == a[1..] + b;
      JoinedBytes(a[1..], b);
    }
  }

  lemma TextEnds(last: seq<byte>, trailer: seq<Piece>)
    ensures Text([], last, trailer) == last + [CR, LF] + ([CR, LF] + AllBytes(trailer))
  {
    hide AllBytes;
    var pieces := [SizeLine(last), Break];
    assert pieces == [SizeLine(last)] + [Break];
    JoinedBytes([SizeLine(last)], [Break]);
    OnePiece(SizeLine(last));
    OnePiece(Break);
    JoinedBytes(pieces, trailer);
    Regroup(last + [CR, LF], [CR, LF], AllBytes(trailer));
  }

  lemma Regroup(a: seq<byte>, b: seq<byte>, c: seq<byte>)
    ensures a + b + c == a + (b + c)
  {
  }

  lemma OnePiece(p: Piece)
    ensures AllBytes([p]) == Bytes(p)
  {
    assert [p][1..] == [];
  }

  lemma TextStarts(chunks: seq<Chunk>, last: seq<byte>, trailer: seq<Piece>)
    requires chunks != []
    ensures Text(chunks, last, trailer) == ChunkText(chunks[0]) + Text(chunks[1..], last, trailer)
  {
    hide AllBytes;
    var c := chunks[0];
    JoinedBytes(ChunkPieces(c), BodyPieces(chunks[1..], last, trailer));
    assert ChunkPieces(c) == [SizeLine(c.line)] + [Body(c.body)] + [Break];
    JoinedBytes([SizeLine(c.line)] + [Body(c.body)], [Break]);
    JoinedBytes([SizeLine(c.line)], [Body(c.body)]);
    OnePiece(SizeLine(c.line));
    OnePiece(Body(c.body));
    OnePiece(Break);
  }

  // The end was seen and the cache has gained the bodies.
  predicate Whole(s: State, u: State, chunks: seq<Chunk>) {
    u.ended && u.written == s.written + Bodies(chunks)
  }

  // A cut at or behind the last chunk's size line.
  lemma CutAtEnd(s: State, first: seq<byte>, stale: byte, pos: nat, second: seq<byte>, stale2: byte,
                 last: seq<byte>, trail: seq<byte>, n: nat)
    requires Between(s) && LastOk(last) && pos <= |first|
    requires var text := last + [CR, LF] + ([CR, LF] + trail); n <= |text| && first[pos..] == text[..n] && second == text[n..]
    ensures var u := Decode(Decode(s, first, stale, pos), second, stale2, 0);
      u.written == s.written && (u.ended <==> n != |last| || LineFollows(trail))
  {
    hide ChunkSize, Decode, Header, LineFollows;
    var l, text := |last|, last + [CR, LF] + ([CR, LF] + trail);
    assert forall i :: 0 <= i < n ==> first[pos + i] == first[pos..][i] == text[i];
    if n == 0 {
      NothingLeft(s, first, stale, pos);
      LastTaken(s, second, stale2, 0, last);
    } else if n < l {
      assert first[pos..] == last[..n];
      KeepLine(s, first, stale, pos);
      LastResumed(s, second, stale2, last, n);
    } else if n == l {
      assert first[pos..] == last;
      KeepLine(s, first, stale, pos);
      LastAwaited(s.(chunkHeader := last), second, stale2, last, trail);
    } else {
      var t := s.(chunkLength := 0, ended := true);
      assert first[pos..pos + l] == last;
      if n == l + 1 {
        CutInBreak(s, first, stale, pos, pos + l);
      } else {
        LastTaken(s, first, stale, pos, last);
      }
      NothingLeft(t, second, stale2, 0);
    }
  }

  lemma LastTaken(s: State, data: seq<byte>, stale: byte, pos: nat, last: seq<byte>)
    requires Between(s) && LastOk(last) && pos + |last| + 2 <= |data| && data[pos..][..|last| + 2] == last + [CR, LF]
    ensures Decode(s, data, stale, pos) == s.(chunkLength := 0, ended := true)
  {
    hide ChunkSize, Decode, Header;
    var l, d := |last|, last + [CR, LF];
    assert forall i :: 0 <= i < l + 2 ==> data[pos + i] == data[pos..][..l + 2][i] == d[i];
    assert data[pos..pos + l] == d[..l] == last;
    ReadLine(s, data, stale, pos, pos + l);
    NothingLeft(s.(chunkLength := 0, ended := true), data, stale, pos + l + 2);
  }

  // Without its last character the last chunk's size is zero all the same.
  lemma LastResumed(s: State, data: seq<byte>, stale: byte, last: seq<byte>, n: nat)
    requires Between(s) && LastOk(last) && 0 < n < |last| && last[n..] + [CR, LF] <= data
    ensures var u := Decode(s.(chunkHeader := last[..n]), data, stale, 0); u.ended && u.written == s.written
  {
    hide ChunkSize, Decode, Header;
    var short, end := last[..|last| - 1], last[|last| - 1..];
    LineResumed(s, data, stale, last, n);
    assert last == short + end;
    if ChunkSize(short) != 0 {
      SizeStaysPositive(short, end);
    }
    NothingLeft(Shortened(s, last), data, stale, |last| - n + 2);
  }

  // A kept "0" whose break comes with the next buffer is read only when another line ends there.
  lemma LastAwaited(t: State, data: seq<byte>, stale: byte, last: seq<byte>, trail: seq<byte>)
    requires !t.ended && t.chunkLength < 0 && t.chunkHeader == last && LastOk(last)
    requires data == [CR, LF] + ([CR, LF] + trail)
    ensures var u := Decode(t, data, stale, 0); u.written == t.written && (u.ended <==> LineFollows(trail))
  {
    hide ChunkSize, SkipBreaks, LineEnd, LineFollows;
    var p := SkipBreaks(data, stale, 0);
    LineSeen(data, stale, trail);
    assert Decode(t, data, stale, 0) == Header(t, data, stale, p);
    if p < |data| && LineEnd(data, p) < |data| {
      var e := LineEnd(data, p);
      assert data[..e - 1] == [CR] + data[1..e - 1];
      ZeroStays(last, data[1..e - 1]);
    }
  }

  lemma LineSeen(data: seq<byte>, stale: byte, trail: seq<byte>)
    requires data == [CR, LF] + ([CR, LF] + trail)
    ensures var p := SkipBreaks(data, stale, 0);
      && (p < |data| ==> 4 <= p)
      && (p < |data| && LineEnd(data, p) < |data| <==> LineFollows(trail))
  {
    hide SkipBreaks, LineEnd, LineFollows;
    var p := SkipBreaks(data, stale, 0);
    if p < |data| && LineEnd(data, p) < |data| {
      var e := LineEnd(data, p);
      assert e > p;
      FollowsAt(trail, p - 4, e - 4);
    }
    if LineFollows(trail) {
      LineIsSeen(data, stale, trail);
    }
  }

  lemma FollowsAt(s: seq<byte>, i: nat, j: nat)
    requires i < j < |s| && !IsBreak(s[i]) && IsBreak(s[j])
    ensures LineFollows(s)
  {
  }

  lemma LineIsSeen(data: seq<byte>, stale: byte, trail: seq<byte>)
    requires data == [CR, LF] + ([CR, LF] + trail) && LineFollows(trail)
    ensures var p := SkipBreaks(data, stale, 0); p < |data| && LineEnd(data, p) < |data|
  {
    hide SkipBreaks, LineEnd;
    OnlyBreaks(data, stale, 0);
    var i, j :| 0 <= i < j < |trail| && !IsBreak(trail[i]) && IsBreak(trail[j]);
    assert data[i + 4] == trail[i] && data[j + 4] == trail[j];
    LineEndsBy(data, SkipBreaks(data, stale, 0), j + 4);
  }

  lemma {:induction false} LineEndsBy(data: seq<byte>, pos: nat, k: nat)
    requires pos <= k < |data| && IsBreak(data[k])
    ensures LineEnd(data, pos) <= k
    decreases k - pos
  {
    if pos < k {
      LineEndsBy(data, pos + 1, k);
    }
  }

  lemma {:induction false} OnlyBreaks(data: seq<byte>, stale: byte, pos: nat)
    ensures forall i :: pos <= i < SkipBreaks(data, stale, pos) && i < |data| ==> IsBreak(data[i])
    decreases |data| - pos
  {
    if pos < |data| && IsBreak(data[pos]) {
      OnlyBreaks(data, stale, PassBreak(data, stale, pos));
    }
  }

  lemma {:induction false} DigitsStop(s: seq<byte>, more: seq<byte>, v: nat)
    ensures Digits(s + [CR] + more, v) == Digits(s, v)
  {
    if s == [] {
      assert (s + [CR] + more)[0] == CR;
    } else if Digit(s[0]) >= 0 {
      assert (s + [CR] + more)[1..] == s[1..] + [CR] + more;
      DigitsStop(s[1..], more, v * 16 + Digit(s[0]));
    } else {
      assert (s + [CR] + more)[0] == s[0];
    }
  }

  lemma ZeroStays(last: seq<byte>, more: seq<byte>)
    requires LastOk(last)
    ensures ChunkSize(last + ([CR] + more)) == 0
  {
    hide Digits;
    var x := last + ([CR] + more);
    assert x[0] == last[0] && SkipSpaces(last) == last && SkipSpaces(x) == x;
    assert SkipPrefix(x) == SkipPrefix(last) + [CR] + more;
    DigitsStop(SkipPrefix(last), more, 0);
  }

  // A cut inside the chunk c, with a text behind it whose chunks are more.
  lemma CutInside(s: State, first: seq<byte>, stale: byte, pos: nat, second: seq<byte>, stale2: byte,
                  c: Chunk, more: seq<Chunk>, last: seq<byte>, trailer: seq<Piece>, n: nat)
    requires Between(s) && ChunkOk(c) && (forall d :: d in more ==> ChunkOk(d)) && LastOk(last)
    requires n < |ChunkText(c)| && pos <= |first| && first[pos..] == ChunkText(c)[..n]
    requires second == ChunkText(c)[n..] + Text(more, last, trailer)
    ensures var u := Decode(Decode(s, first, stale, pos), second, stale2, 0);
      var start := |c.line| + 2;
      && (InStep(c, n) ==> u.ended && u.written == s.written + c.body + Bodies(more))
      && (!InStep(c, n) && !(start < n < start + |c.body|) ==>
            !u.ended || u.written != s.written + c.body + Bodies(more))
  {
    hide ChunkSize, Decode, Header, Text, BodyPieces;
    var l, k := |c.line|, |ChunkText(c)| - n;
    CutLeaves(s, first, stale, pos, c, n);
    if InStep(c, n) {
      assert second[..k] == ChunkText(c)[n..] && second[k..] == Text(more, last, trailer);
      Resume(s, second, stale2, c, n, |first|);
      Remaining(Done(s, c.body), second, stale2, k, more, last, trailer);
    } else if n < l {
      assert second[..l - n + 2] == c.line[n..] + [CR, LF];
      LineSpoilt(s, second, stale2, c, n);
    } else if n == l {
      assert c.line[..n] == c.line;
      NeverEnds(s.(chunkHeader := c.line), second, stale2, 0);
    } else if n == l + 1 {
      assert second == [LF] + c.body + [CR, LF] + Text(more, last, trailer);
      CutAtFeed(s, second, stale2, c, Text(more, last, trailer));
    }
  }

  lemma Remaining(s: State, data: seq<byte>, stale: byte, pos: nat,
                  chunks: seq<Chunk>, last: seq<byte>, trailer: seq<Piece>)
    requires Between(s) && (forall c :: c in chunks ==> ChunkOk(c)) && LastOk(last)
    requires pos <= |data| && data[pos..] == Text(chunks, last, trailer)
    ensures Whole(s, Decode(s, data, stale, pos), chunks)
  {
    hide ChunkSize, Decode, BodyPieces, ChunkOk;
    BodyTaken(s, chunks, last, trailer);
    DecodePieces(s, data, stale, pos, BodyPieces(chunks, last, trailer));
  }

  // A cut inside a chunk's size line: the end is seen at once, or never.
  lemma LineSpoilt(s: State, data: seq<byte>, stale: byte, c: Chunk, n: nat)
    requires Between(s) && ChunkOk(c) && 0 < n < |c.line| && c.line[n..] + [CR, LF] <= data
    ensures var u := Decode(s.(chunkHeader := c.line[..n]), data, stale, 0); !u.ended || u.written == s.written
  {
    hide ChunkSize, Decode, Header;
    LineResumed(s, data, stale, c.line, n);
    var v, q := Shortened(s, c.line), |c.line| - n + 2;
    if v.ended {
      NothingLeft(v, data, stale, q);
    } else {
      NeverEnds(v, data, stale, q);
    }
  }

  // The two buffers of a delivery that is cut behind its first n bytes; the first one may
  // hold something before it.
  lemma {:induction false} CutAnywhere(s: State, first: seq<byte>, stale: byte, pos: nat, second: seq<byte>, stale2: byte,
                                       chunks: seq<Chunk>, last: seq<byte>, trailer: seq<Piece>, n: nat)
    requires Between(s) && (forall c :: c in chunks ==> ChunkOk(c)) && LastOk(last)
    requires n <= |Text(chunks, last, trailer)| && pos <= |first|
    requires first[pos..] == Text(chunks, last, trailer)[..n] && second == Text(chunks, last, trailer)[n..]
    ensures var u := Decode(Decode(s, first, stale, pos), second, stale2, 0);
      && (Survives(chunks, last, trailer, n) ==> Whole(s, u, chunks))
      && (!Survives(chunks, last, trailer, n) && !InBody(chunks, n) ==> !Whole(s, u, chunks))
    decreases |chunks|
  {
    hide ChunkSize, Decode, Header, ChunkOk, LineFollows, InStep, Text;
    if chunks == [] {
      TextEnds(last, trailer);
      CutAtEnd(s, first, stale, pos, second, stale2, last, AllBytes(trailer), n);
    } else {
      var c, more := chunks[0], chunks[1..];
      var size := |ChunkText(c)|;
      TextStarts(chunks, last, trailer);
      if n >= size {
        assert first[pos..pos + size] == first[pos..][..size] == ChunkText(c);
        WholeChunk(s, first, stale, pos, c);
        assert first[pos + size..] == first[pos..][size..] == Text(more, last, trailer)[..n - size];
        CutAnywhere(Done(s, c.body), first, stale, pos + size, second, stale2, more, last, trailer, n - size);
        assert s.written + c.body + Bodies(more) == s.written + (c.body + Bodies(more));
      } else {
        assert first[pos..] == ChunkText(c)[..n] && second == ChunkText(c)[n..] + Text(more, last, trailer);
        CutInside(s, first, stale, pos, second, stale2, c, more, last, trailer, n);
        assert s.written + c.body + Bodies(more) == s.written + (c.body + Bodies(more));
      }
    }
  }

  // Both buffers handed to write: wherever the first one ends outside a chunk's body, the
  // delivery is received if and only if the cut is one that the decoder survives.
  method ReceiveInTwo(http: Http, chunks: seq<Chunk>, last: seq<byte>, trailer: seq<Piece>,
                      n: nat, stale: byte, stale2: byte)
    requires http.caching && http.contentsize < 0 && http.httpCode != 0
    requires Between(http.Chunked()) && (forall c :: c in chunks ==> ChunkOk(c)) && LastOk(last)
    requires n <= |Text(chunks, last, trailer)|
    modifies http
    ensures !InBody(chunks, n) ==>
      (http.endDetected && http.tempCache == old(http.tempCache) + Bodies(chunks) <==> Survives(chunks, last, trailer, n))
  {
    hide Decode, ChunkOk, Text, Survives, InBody, Bodies;
    var text := Text(chunks, last, trailer);
    ghost var s := http.Chunked();
    assert text[..n][0..] == text[..n];
    CutAnywhere(s, text[..n], stale, 0, text[n..], stale2, chunks, last, trailer, n);
    var r := http.Write(text[..n], stale);
    ghost var t := http.Chunked();
    if t.ended {
      NothingLeft(t, text[n..], stale2, 0);
    }
    r := http.Write(text[n..], stale2);
  }

  // ---------------------------------------------------------------- a cut inside a body

  predicate InChunks(chunks: seq<Chunk>, n: nat) {
    chunks != [] &&
    var size := |ChunkText(chunks[0])|;
    n < size || InChunks(chunks[1..], n - size)
  }

  // The end of the chunk that holds byte n, and the bodies of the chunks up to there.
  function EndOfChunk(chunks: seq<Chunk>, n: nat): (r: nat)
    requires InChunks(chunks, n)
    ensures n < r
  {
    var size := |ChunkText(chunks[0])|;
    if n < size then size else size + EndOfChunk(chunks[1..], n - size)
  }

  function BodiesUpTo(chunks: seq<Chunk>, n: nat): seq<byte>
    requires InChunks(chunks, n)
  {
    var size := |ChunkText(chunks[0])|;
    chunks[0].body + if n < size then [] else BodiesUpTo(chunks[1..], n - size)
  }

  // The cuts behind which every body is in the cache once its chunk's last byte has come.
  predicate Timely(chunks: seq<Chunk>, n: nat)
    requires InChunks(chunks, n)
  {
    var size := |ChunkText(chunks[0])|;
    if n < size then ArrivesCut(chunks[0], n) else Timely(chunks[1..], n - size)
  }

  lemma {:induction false} NeverInBody(chunks: seq<Chunk>, n: nat)
    requires InChunks(chunks, n) && InBody(chunks, n)
    ensures !Timely(chunks, n)
  {
    if n >= |ChunkText(chunks[0])| {
      NeverInBody(chunks[1..], n - |ChunkText(chunks[0])|);
    }
  }

  // A delivery up to the end of the chunk in which the first buffer ends: the bodies are in the
  // cache if and only if the cut is timely. No cut inside a body is.
  lemma {:induction false} CutIsTimely(s: State, first: seq<byte>, stale: byte, pos: nat, stale2: byte,
                                       chunks: seq<Chunk>, last: seq<byte>, trailer: seq<Piece>, n: nat)
    requires Between(s) && (forall c :: c in chunks ==> ChunkOk(c)) && InChunks(chunks, n)
    requires var text := Text(chunks, last, trailer);
      n <= |text| && pos <= |first| && first[pos..] == text[..n]
    ensures EndOfChunk(chunks, n) <= |Text(chunks, last, trailer)|
    ensures var second := Text(chunks, last, trailer)[n..EndOfChunk(chunks, n)];
      var u := Decode(Decode(s, first, stale, pos), second, stale2, 0);
      u.written == s.written + BodiesUpTo(chunks, n) <==> Timely(chunks, n)
    decreases |chunks|
  {
    hide ChunkSize, Decode, Header, ChunkOk, Text, ArrivesCut, InStep;
    var c, more := chunks[0], chunks[1..];
    var size := |ChunkText(c)|;
    TextStarts(chunks, last, trailer);
    var text, rest := Text(chunks, last, trailer), Text(more, last, trailer);
    if n >= size {
      assert first[pos..pos + size] == first[pos..][..size] == ChunkText(c);
      WholeChunk(s, first, stale, pos, c);
      assert first[pos + size..] == first[pos..][size..] == rest[..n - size];
      CutIsTimely(Done(s, c.body), first, stale, pos + size, stale2, more, last, trailer, n - size);
      assert text[n..EndOfChunk(chunks, n)] == rest[n - size..EndOfChunk(more, n - size)];
      assert s.written + c.body + BodiesUpTo(more, n - size) == s.written + (c.body + BodiesUpTo(more, n - size));
    } else {
      assert first[pos..] == ChunkText(c)[..n] && text[n..size] == ChunkText(c)[n..];
      CutChunk(s, first, pos, c, n, stale, stale2);
      assert c.body + [] == c.body;
    }
  }

  // Chunks under the size lines "7" and "6;6". The rest of the first body behind its first
  // byte is "6;" CR LF "6;".
  const REPEAT: seq<byte> := [54, 59, CR, LF, 54, 59]
  const SIX: seq<byte> := [1, 2, 3, 4, 5, 6]
  const CHUNKS: seq<Chunk> := [Chunk([55], [97] + REPEAT), Chunk([54, 59, 54], SIX)]
  const BEHIND: seq<byte> := REPEAT + [CR, LF, 54, 59, 54, CR, LF] + SIX + [CR, LF, 48, CR, LF, CR, LF]

  lemma AccidentText()
    ensures Text(CHUNKS, [48], []) == [55, CR, LF, 97] + BEHIND
  {
    hide Text;
    TextStarts(CHUNKS, [48], []);
    TextStarts(CHUNKS[1..], [48], []);
    TextEnds([48], []);
    assert CHUNKS[1..][1..] == [];
    assert AllBytes([]) == [];
  }

  // By accident a delivery that is cut inside a body can come out whole: here the rest of the
  // first body reads as a chunk of its own, whose body repeats it and ends in the next size line.
  lemma CutByAccident(stale: byte, stale2: byte)
    ensures var text, s := Text(CHUNKS, [48], []), State(-1, [], [], 0, false);
      && (forall c :: c in CHUNKS ==> ChunkOk(c)) && LastOk([48]) && InBody(CHUNKS, 4) && |text| > 4
      && Whole(s, Decode(Decode(s, text[..4], stale, 0), text[4..], stale2, 0), CHUNKS)
  {
    hide Decode, Header;
    AccidentText();
    Sizes();
    hide ChunkSize;
    var text, s := Text(CHUNKS, [48], []), State(-1, [], [], 0, false);
    assert [55, CR, LF, 97] + BEHIND == text && ([55, CR, LF, 97] + BEHIND)[4..] == BEHIND;
    assert text[..4] == ChunkText(CHUNKS[0])[..4] && text[..4][0..] == text[..4] && text[4..] == BEHIND;
    CutLeaves(s, text[..4], stale, 0, CHUNKS[0], 4);
    var t := State(-1, [], [97], 4, false);
    assert Decode(s, text[..4], stale, 0) == t;
    AccidentDecoded(t, stale2);
    assert Bodies(CHUNKS[1..]) == SIX + Bodies(CHUNKS[1..][1..]);
  }

  lemma AccidentDecoded(t: State, stale: byte)
    requires Between(t)
    ensures var u := Decode(t, BEHIND, stale, 0); u.ended && u.written == t.written + REPEAT + SIX
  {
    hide Decode, Header;
    Sizes();
    hide ChunkSize;
    assert BEHIND[0..2] == [54, 59];
    ReadLine(t, BEHIND, stale, 0, 2);
    var u := Done(t, REPEAT);
    assert BEHIND[4..10] == REPEAT;
    TakeBody(t.(chunkLength := 6), BEHIND, stale, 4, REPEAT);
    assert BEHIND[10..11] == [54];
    ReadLine(u, BEHIND, stale, 10, 11);
    assert BEHIND[13..19] == SIX;
    BodyAndBreak(u.(chunkLength := 6), BEHIND, stale, 13, SIX);
    assert BEHIND[21..][..3] == [48] + [CR, LF];
    LastTaken(Done(u, SIX), BEHIND, stale, 21, [48]);
  }

  lemma Sizes()
    ensures ChunkSize([55]) == 7 && ChunkSize([54, 59, 54]) == 6 && ChunkSize([54, 59]) == 6 && ChunkSize([54]) == 6
    ensures ChunkSize([48]) == 0
  {
  }
}
