// The body of a backend's answer as Http::write takes it: by length, or in the chunked
// coding of section 7.1 of RFC 9112.
module HttpChunk {
  import opened Words

  const CR: byte := 13
  const LF: byte := 10

  predicate IsBreak(c: byte) {
    c == CR || c == LF
  }

  // ---------------------------------------------------------------- the size of a chunk

  // The value of a hexadecimal digit, or -1.
  function Digit(c: byte): (r: int)
    ensures -1 <= r < 16
  {
    if 48 <= c <= 57 then c - 48 else if 65 <= c <= 70 then c - 55 else if 97 <= c <= 102 then c - 87 else -1
  }

  predicate IsSpace(c: byte) {
    c == 32 || 9 <= c <= 13
  }

  // The digits that s starts with, after the value so far.
  function Digits(s: seq<byte>, v: nat): (r: nat)
    ensures r >= v
  {
    if s == [] || Digit(s[0]) < 0 then v else Digits(s[1..], v * 16 + Digit(s[0]))
  }

  function SkipSpaces(s: seq<byte>): (r: seq<byte>)
  {
    if s != [] && IsSpace(s[0]) then SkipSpaces(s[1..]) else s
  }

  function SkipPrefix(s: seq<byte>): (r: seq<byte>)
  {
    if |s| > 2 && s[0] == 48 && (s[1] == 120 || s[1] == 88) && Digit(s[2]) >= 0 then s[2..] else s
  }

  // strtoull in base 16: spaces, a sign, a prefix, the digits; too large a value is the largest.
  function Strtoull(s: seq<byte>): u64 {
    var t := SkipSpaces(s);
    var negative := t != [] && t[0] == 45;
    var u := if t != [] && (t[0] == 43 || t[0] == 45) then t[1..] else t;
    var v := Digits(SkipPrefix(u), 0);
    if v >= W64 then W64 - 1 else if negative then (W64 - v) % W64 else v
  }

  // A size line's value as the signed field holds it.
  function ChunkSize(line: seq<byte>): (r: int)
    ensures -0x8000_0000_0000_0000 <= r < 0x8000_0000_0000_0000
  {
    var v := Strtoull(line);
    if v < 0x8000_0000_0000_0000 then v else v - W64
  }

  function HexDigit(d: nat): byte
    requires d < 16
  {
    if d < 10 then 48 + d else 87 + d
  }

  // A number in hexadecimal, without leading zeros.
  function HexLine(n: nat): (r: seq<byte>)
    ensures |r| > 0
  {
    if n < 16 then [HexDigit(n)] else HexLine(n / 16) + [HexDigit(n % 16)]
  }

  lemma {:induction false} DigitsMore(s: seq<byte>, c: byte, v: nat)
    requires (forall i :: 0 <= i < |s| ==> Digit(s[i]) >= 0) && Digit(c) >= 0
    ensures Digits(s + [c], v) == Digits(s, v) * 16 + Digit(c)
  {
    if s == [] {
      assert [c][1..] == [];
    } else {
      assert (s + [c])[1..] == s[1..] + [c];
      DigitsMore(s[1..], c, v * 16 + Digit(s[0]));
    }
  }

  lemma {:induction false} HexLineDigits(n: nat)
    ensures forall i :: 0 <= i < |HexLine(n)| ==> Digit(HexLine(n)[i]) >= 0
    ensures Digits(HexLine(n), 0) == n
  {
    if n >= 16 {
      HexLineDigits(n / 16);
      DigitsMore(HexLine(n / 16), HexDigit(n % 16), 0);
    } else {
      assert [HexDigit(n)][1..] == [];
    }
  }

  // A chunk size written in hexadecimal reads back, up to the largest signed value.
  lemma HexLineSize(n: nat)
    requires n < 0x8000_0000_0000_0000
    ensures ChunkSize(HexLine(n)) == n && NoBreak(HexLine(n))
  {
    HexLineDigits(n);
    var s := HexLine(n);
    assert Digit(s[0]) >= 0 && (|s| > 1 ==> Digit(s[1]) >= 0);
    assert SkipSpaces(s) == s && SkipPrefix(s) == s;
  }

  predicate NoBreak(s: seq<byte>) {
    forall i :: 0 <= i < |s| ==> !IsBreak(s[i])
  }

  // ---------------------------------------------------------------- what a size line states

  const LOWER := "0123456789abcdef"
  const UPPER := "0123456789ABCDEF"

  // The character of the digit d, in either case.
  predicate Shows(c: byte, d: nat) {
    d < 16 && (c == LOWER[d] as int || c == UPPER[d] as int)
  }

  // The number that hexadecimal digits stand for, each by its place.
  function Positional(ds: seq<nat>): nat {
    if ds == [] then 0 else ds[0] * Pow2(4 * (|ds| - 1)) + Positional(ds[1..])
  }

  // A text of digits of either case, one at least, and behind it nothing or what is no digit, as
  // an extension; and not the prefix 0x of another number.
  ghost predicate Stated(s: seq<byte>, ds: seq<nat>, extension: seq<byte>) {
    && |s| == |ds| > 0 && (forall i :: 0 <= i < |s| ==> Shows(s[i], ds[i]))
    && (extension != [] ==> forall d :: !Shows(extension[0], d))
    && !(s == [48] && |extension| > 1 && extension[0] in {88, 120} && exists d :: Shows(extension[1], d))
  }

  lemma ShowsDigit(c: byte, d: nat)
    ensures Shows(c, d) <==> d < 16 && Digit(c) == d
  {
  }

  lemma {:induction false} DigitsPositional(s: seq<byte>, ds: seq<nat>, extension: seq<byte>, v: nat)
    requires |s| == |ds| && forall i :: 0 <= i < |s| ==> Shows(s[i], ds[i])
    requires extension != [] ==> Digit(extension[0]) < 0
    ensures Digits(s + extension, v) == v * Pow2(4 * |s|) + Positional(ds)
  {
    hide Pow2, Shows, Digit;
    if s == [] {
      assert s + extension == extension;
      assert Pow2(0) == 1 by { OnePower(); }
    } else {
      ShowsDigit(s[0], ds[0]);
      assert (s + extension)[0] == s[0] && (s + extension)[1..] == s[1..] + extension;
      forall i | 0 <= i < |s| - 1 ensures Shows(s[1..][i], ds[1..][i]) {
        assert Shows(s[i + 1], ds[i + 1]);
      }
      DigitsPositional(s[1..], ds[1..], extension, v * 16 + ds[0]);
      PowerTimes16(4 * |s| - 4);
      OnePlace(v, ds[0], Pow2(4 * |s| - 4));
    }
  }

  lemma OnePlace(v: nat, d: nat, p: nat)
    ensures (v * 16 + d) * p == v * (16 * p) + d * p
  {
  }

  lemma OnePower()
    ensures Pow2(0) == 1
  {
  }

  lemma PowerTimes16(n: nat)
    ensures Pow2(n + 4) == 16 * Pow2(n)
  {
    assert Pow2(n + 4) == 2 * Pow2(n + 3) == 4 * Pow2(n + 2) == 8 * Pow2(n + 1);
  }

  lemma NoDigit(c: byte)
    ensures (forall d :: !Shows(c, d)) <==> Digit(c) < 0
  {
    if Digit(c) >= 0 {
      ShowsDigit(c, Digit(c));
    }
  }

  // A size line has the value of its digits; one too large for the signed field is negative.
  lemma StatedSize(s: seq<byte>, ds: seq<nat>, extension: seq<byte>)
    requires Stated(s, ds, extension)
    ensures var v := Positional(ds);
      ChunkSize(s + extension) == if v < 0x8000_0000_0000_0000 then v else if v < W64 then v - W64 else -1
  {
    hide Digits, Positional, SkipSpaces, Stated, SkipPrefix;
    StatedPlain(s, ds, extension);
    NoSpace(s + extension);
  }

  lemma NoSpace(line: seq<byte>)
    requires line != [] && !IsSpace(line[0])
    ensures SkipSpaces(line) == line
  {
  }

  // White space: tab, line feed, vertical tab, form feed, carriage return, space.
  const WHITE: set<byte> := {9, 10, 11, 12, 13, 32}

  lemma {:induction false} SpacesSkipped(spaces: seq<byte>, t: seq<byte>)
    requires (forall i :: 0 <= i < |spaces| ==> spaces[i] in WHITE) && t != [] && t[0] !in WHITE
    ensures SkipSpaces(spaces + t) == t
  {
    if spaces == [] {
      assert spaces + t == t;
    } else {
      assert (spaces + t)[1..] == spaces[1..] + t;
      SpacesSkipped(spaces[1..], t);
    }
  }

  // White space in front of the digits is passed over, and so is a sign, which a minus gives the
  // number.
  lemma SignedSize(spaces: seq<byte>, sign: seq<byte>, s: seq<byte>, ds: seq<nat>, extension: seq<byte>)
    requires (forall i :: 0 <= i < |spaces| ==> spaces[i] in WHITE) && sign in {[], [43], [45]}
    requires Stated(s, ds, extension) && Positional(ds) < 0x8000_0000_0000_0000
    ensures ChunkSize(spaces + sign + s + extension) == (if sign == [45] then -1 else 1) * Positional(ds)
  {
    hide Digits, Positional, SkipSpaces, Stated, SkipPrefix;
    var line, t := s + extension, sign + s + extension;
    StatedPlain(s, ds, extension);
    SpacesSkipped(spaces, t);
    assert spaces + sign + s + extension == spaces + t;
    if sign != [] {
      assert t[0] == sign[0] && t[1..] == line;
    } else {
      assert t == line;
    }
  }

  lemma StatedPlain(s: seq<byte>, ds: seq<nat>, extension: seq<byte>)
    requires Stated(s, ds, extension)
    ensures var line := s + extension;
      line != [] && Digit(line[0]) >= 0 && SkipPrefix(line) == line && Digits(line, 0) == Positional(ds)
  {
    hide Digits, Positional, Shows, Pow2;
    var line := s + extension;
    assert line[0] == s[0] && Shows(s[0], ds[0]);
    ShowsDigit(s[0], ds[0]);
    if extension != [] {
      NoDigit(extension[0]);
    }
    if |line| > 2 {
      NoDigit(line[2]);
      if |s| > 1 {
        assert line[1] == s[1] && Shows(s[1], ds[1]);
        ShowsDigit(s[1], ds[1]);
      } else {
        assert line[1] == extension[0] && line[2] == extension[1];
      }
    }
    DigitsPositional(s, ds, extension, 0);
  }

  // With the prefix 0x in front of a digit, the digits behind it are the number.
  lemma PrefixedSize(s: seq<byte>, ds: seq<nat>, extension: seq<byte>, x: byte)
    requires |s| == |ds| > 0 && (forall i :: 0 <= i < |s| ==> Shows(s[i], ds[i])) && x in {88, 120}
    requires extension != [] ==> forall d :: !Shows(extension[0], d)
    ensures Positional(ds) < 0x8000_0000_0000_0000 ==> ChunkSize([48, x] + s + extension) == Positional(ds)
  {
    hide Digits, Positional, SkipSpaces, Shows, Pow2;
    var line := [48, x] + s + extension;
    assert line[2] == s[0] && Shows(s[0], ds[0]) && line[2..] == s + extension;
    ShowsDigit(s[0], ds[0]);
    assert SkipSpaces(line) == line by { NoSpace(line); }
    if extension != [] {
      NoDigit(extension[0]);
    }
    DigitsPositional(s, ds, extension, 0);
  }

  // ---------------------------------------------------------------- one buffer, as a function

  // What write keeps between calls: the bytes still to come of a chunk, or -1; a size line
  // cut by a buffer's end; what the cache holds; and whether the end was seen.
  datatype State = State(chunkLength: int, chunkHeader: seq<byte>, written: seq<byte>, contentwritten: int, ended: bool)

  // A byte of the buffer; stale is what lies behind its end.
  function At(data: seq<byte>, stale: byte, pos: nat): byte {
    if pos < |data| then data[pos] else stale
  }

  // The position behind the line break at pos: a CR takes an LF with it, even a stale one.
  function PassBreak(data: seq<byte>, stale: byte, pos: nat): (r: nat)
    requires pos < |data|
    ensures pos < r <= pos + 2
  {
    if data[pos] == CR && At(data, stale, pos + 1) == LF then pos + 2 else pos + 1
  }

  // The first position from pos on that is not a line break.
  function SkipBreaks(data: seq<byte>, stale: byte, pos: nat): (r: nat)
    ensures r >= pos && (r < |data| ==> !IsBreak(data[r]))
    decreases |data| - pos
  {
    if pos < |data| && IsBreak(data[pos]) then SkipBreaks(data, stale, PassBreak(data, stale, pos)) else pos
  }

  // The next line break, or the end.
  function LineEnd(data: seq<byte>, pos: nat): (r: nat)
    requires pos <= |data|
    ensures pos <= r <= |data| && (r < |data| ==> IsBreak(data[r])) && NoBreak(data[pos..r])
    decreases |data| - pos
  {
    if pos == |data| || IsBreak(data[pos]) then pos
    else
      var r := LineEnd(data, pos + 1);
      assert data[pos..r] == [data[pos]] + data[pos + 1..r];
      r
  }

  // What the rest of a buffer, from pos on, makes of the state.
  function Decode(s: State, data: seq<byte>, stale: byte, pos: nat): State
    decreases |data| - pos
  {
    if pos >= |data| || s.ended then s
    else if s.chunkLength > 0 then
      if s.chunkLength > |data| - pos then
        s.(chunkLength := -1, written := s.written + data[pos..], contentwritten := s.contentwritten + |data|)
      else
        var next := pos + s.chunkLength;
        Decode(s.(chunkLength := -1, written := s.written + data[pos..next],
                  contentwritten := s.contentwritten + s.chunkLength), data, stale, next)
    else Header(s, data, stale, SkipBreaks(data, stale, pos))
  }

  // The part for a size line that starts at p.
  function Header(s: State, data: seq<byte>, stale: byte, p: nat): State
    requires p < |data| ==> !IsBreak(data[p])
    decreases |data| - p, 0
  {
    if p >= |data| then s.(ended := s.ended || s.chunkLength == 0)
    else
      var e := LineEnd(data, p);
      if e == |data| then
        if s.chunkLength == 0 then s.(ended := true)
        else if s.chunkHeader == [] && s.chunkLength < 0 then s.(chunkHeader := data[p..])
        else s
      else
        assert e > p;
        var header := if s.chunkHeader == [] then [] else s.chunkHeader + data[..e - 1];
        var n := ChunkSize(if s.chunkHeader == [] then data[p..e] else header);
        var t := s.(chunkHeader := header, chunkLength := n);
        if n == 0 then t.(ended := true) else Decode(t, data, stale, PassBreak(data, stale, e))
  }

  // ---------------------------------------------------------------- the object

  class Http {
    var endDetected: bool
    var httpCode: int
    var contentsize: int
    var contentwritten: int
    var chunkLength: int
    var chunkHeader: seq<byte>
    var caching: bool            // tempCache != nullptr
    var tempCache: seq<byte>     // what has been written to it

    constructor ()
      ensures !endDetected && contentsize == -1 && contentwritten == 0 && chunkLength == -1 && chunkHeader == []
      ensures httpCode == 0 && !caching && tempCache == []
    {
      endDetected, httpCode, contentsize, contentwritten := false, 0, -1, 0;
      chunkLength, chunkHeader, caching, tempCache := -1, [], false, [];
    }

    function Chunked(): State
      reads this
    {
      State(chunkLength, chunkHeader, tempCache, contentwritten, endDetected)
    }

    // stale is the byte behind the data, which the program may look at.
    method Write(data: seq<byte>, stale: byte) returns (r: int)
      modifies this
      ensures httpCode == old(httpCode) && contentsize == old(contentsize) && caching == old(caching)
      ensures r == if old(endDetected) then -1 else |data|
      ensures old(endDetected) || !caching ==> Chunked() == old(Chunked())
      ensures !old(endDetected) && caching && contentsize >= 0 ==>
        && tempCache == old(tempCache) + data && contentwritten == old(contentwritten) + |data|
        && (endDetected <==> contentsize <= contentwritten)
        && chunkLength == old(chunkLength) && chunkHeader == old(chunkHeader)
      ensures !old(endDetected) && caching && contentsize < 0 ==>
        Chunked() == if httpCode != 0 then Decode(old(Chunked()), data, stale, 0) else old(Chunked())
    {
      if endDetected {
        return -1;
      }
      if !caching {
        return |data|;
      }
      if contentsize >= 0 {
        tempCache := tempCache + data;
        contentwritten := contentwritten + |data|;
        if contentsize <= contentwritten {
          endDetected := true;
        }
      } else if httpCode != 0 {
        WriteChunked(data, stale);
      }
      return |data|;
    }

    // The loop over one buffer: each pass takes a chunk's body, or line breaks and a size line.
    method WriteChunked(data: seq<byte>, stale: byte)
      requires !endDetected
      modifies this`chunkLength, this`chunkHeader, this`tempCache, this`contentwritten, this`endDetected
      ensures Chunked() == Decode(old(Chunked()), data, stale, 0)
    {
      hide LineEnd, SkipBreaks, ChunkSize;
      var pos, pos2 := 0, 0;
      ghost var all := Decode(Chunked(), data, stale, 0);
      while pos < |data|
        invariant 0 <= pos2 <= pos && (pos < |data| ==> pos2 == pos) && !endDetected
        invariant all == Decode(Chunked(), data, stale, pos)
        decreases |data| - pos
      {
        if chunkLength > 0 {
          if chunkLength > |data| - pos {
            tempCache := tempCache + data[pos..];
            contentwritten := contentwritten + |data|;
            pos := |data|;
          } else {
            tempCache := tempCache + data[pos..pos + chunkLength];
            contentwritten := contentwritten + chunkLength;
            pos := pos + chunkLength;
          }
          pos2 := pos;
          chunkLength := -1;
        } else {
          pos, pos2 := ReadHeader(data, stale, pos);
          if chunkLength == 0 {
            endDetected := true;
            return;
          } else if pos >= |data| && chunkLength < 0 && pos2 < pos {
            if chunkHeader == [] {
              chunkHeader := data[pos2..];
            }
          }
        }
      }
    }

    // The inner loop: line breaks at the start are passed over, the next one ends a size line.
    method ReadHeader(data: seq<byte>, stale: byte, start: nat) returns (pos: nat, pos2: nat)
      requires start < |data|
      modifies this`chunkLength, this`chunkHeader
      ensures start < pos && pos2 <= pos
      ensures var p := SkipBreaks(data, stale, start);
        if p >= |data| then pos2 == pos == p && chunkLength == old(chunkLength) && chunkHeader == old(chunkHeader)
        else var e := LineEnd(data, p);
          if e == |data| then
            pos == |data| && pos2 == p < pos && chunkLength == old(chunkLength) && chunkHeader == old(chunkHeader)
          else
            && p < e && pos2 == pos == PassBreak(data, stale, e)
            && chunkHeader == (if old(chunkHeader) == [] then [] else old(chunkHeader) + data[..e - 1])
            && chunkLength == ChunkSize(if old(chunkHeader) == [] then data[p..e] else chunkHeader)
    {
      hide ChunkSize;
      pos, pos2 := start, start;
      while pos < |data|
        invariant start <= pos2 <= pos && (pos2 == pos || pos <= |data|)
        invariant chunkLength == old(chunkLength) && chunkHeader == old(chunkHeader)
        invariant if pos2 == pos then SkipBreaks(data, stale, start) == SkipBreaks(data, stale, pos)
          else pos2 == SkipBreaks(data, stale, start) && LineEnd(data, pos2) == LineEnd(data, pos)
        decreases |data| - pos
      {
        var c := data[pos];
        if IsBreak(c) {
          if pos2 == pos {
            pos := PassBreak(data, stale, pos);
            pos2 := pos;
          } else {
            if chunkHeader == [] {
              chunkLength := ChunkSize(data[pos2..pos]);
            } else {
              chunkHeader := chunkHeader + data[..pos - 1];
              chunkLength := ChunkSize(chunkHeader);
            }
            pos := PassBreak(data, stale, pos);
            pos2 := pos;
            return;
          }
        } else {
          pos := pos + 1;
        }
      }
    }
  }

  // ---------------------------------------------------------------- the chunked coding

  // The pieces between which a buffer may end: a size line with its break, a chunk's whole
  // body, a line break.
  datatype Piece = SizeLine(line: seq<byte>) | Body(bytes: seq<byte>) | Break

  function Bytes(p: Piece): seq<byte> {
    match p
    case SizeLine(line) => line + [CR, LF]
    case Body(bytes) => bytes
    case Break => [CR, LF]
  }

  function AllBytes(pieces: seq<Piece>): seq<byte> {
    if pieces == [] then [] else Bytes(pieces[0]) + AllBytes(pieces[1..])
  }

  // What one piece means to a decoder.
  function Take(s: State, p: Piece): State {
    if s.ended then s
    else match p
      case SizeLine(line) => s.(chunkLength := ChunkSize(line), ended := ChunkSize(line) == 0)
      case Body(bytes) =>
        s.(chunkLength := -1, written := s.written + bytes, contentwritten := s.contentwritten + |bytes|)
      case Break => s
  }

  function TakeAll(s: State, pieces: seq<Piece>): State
    decreases |pieces|
  {
    if pieces == [] then s else TakeAll(Take(s, pieces[0]), pieces[1..])
  }

  // The piece may come in this state; behind the end anything may.
  ghost predicate Fits(s: State, p: Piece) {
    s.ended || (s.chunkHeader == [] &&
      match p
      case SizeLine(line) => s.chunkLength < 0 && line != [] && NoBreak(line) && ChunkSize(line) >= 0
      case Body(bytes) => s.chunkLength == |bytes| > 0
      case Break => s.chunkLength < 0)
  }

  ghost predicate AllFit(s: State, pieces: seq<Piece>)
    decreases |pieces|
  {
    pieces == [] || (Fits(s, pieces[0]) && AllFit(Take(s, pieces[0]), pieces[1..]))
  }

  lemma {:induction false} LineEndIs(data: seq<byte>, pos: nat, e: nat)
    requires pos <= e < |data| && IsBreak(data[e]) && NoBreak(data[pos..e])
    ensures LineEnd(data, pos) == e
    decreases e - pos
  {
    if pos < e {
      assert data[pos] == data[pos..e][0];
      assert data[pos + 1..e] == data[pos..e][1..];
      LineEndIs(data, pos + 1, e);
    }
  }

  lemma DecodeSizeLine(s: State, data: seq<byte>, stale: byte, pos: nat, line: seq<byte>)
    requires !s.ended && Fits(s, SizeLine(line)) && pos + |line| + 2 <= |data|
    requires data[pos..pos + |line|] == line && data[pos + |line|] == CR && data[pos + |line| + 1] == LF
    ensures Decode(s, data, stale, pos) == Decode(Take(s, SizeLine(line)), data, stale, pos + |line| + 2)
  {
    hide LineEnd, ChunkSize;
    assert data[pos] == line[0] && SkipBreaks(data, stale, pos) == pos;
    LineEndIs(data, pos, pos + |line|);
  }

  lemma DecodeBody(s: State, data: seq<byte>, stale: byte, pos: nat, bytes: seq<byte>)
    requires !s.ended && Fits(s, Body(bytes)) && pos + |bytes| <= |data| && data[pos..pos + |bytes|] == bytes
    ensures Decode(s, data, stale, pos) == Decode(Take(s, Body(bytes)), data, stale, pos + |bytes|)
  {
    hide Header;
  }

  lemma DecodeBreak(s: State, data: seq<byte>, stale: byte, pos: nat)
    requires !s.ended && Fits(s, Break) && pos + 2 <= |data| && data[pos] == CR && data[pos + 1] == LF
    ensures Decode(s, data, stale, pos) == Decode(s, data, stale, pos + 2)
  {
    hide LineEnd, ChunkSize;
    assert SkipBreaks(data, stale, pos) == SkipBreaks(data, stale, pos + 2);
  }

  // One piece at pos: the rest of the buffer is decoded from behind it.
  lemma DecodePiece(s: State, data: seq<byte>, stale: byte, pos: nat, p: Piece)
    requires !s.ended && Fits(s, p) && pos + |Bytes(p)| <= |data| && data[pos..pos + |Bytes(p)|] == Bytes(p)
    ensures Decode(s, data, stale, pos) == Decode(Take(s, p), data, stale, pos + |Bytes(p)|)
  {
    hide Decode, ChunkSize, Fits;
    match p {
      case SizeLine(line) =>
        InTwo(data, pos, line, [CR, LF]);
        DecodeSizeLine(s, data, stale, pos, line);
      case Body(bytes) => DecodeBody(s, data, stale, pos, bytes);
      case Break =>
        InTwo(data, pos, [], [CR, LF]);
        DecodeBreak(s, data, stale, pos);
    }
  }

  // A text at pos that ends in a line break.
  lemma InTwo(data: seq<byte>, pos: nat, line: seq<byte>, end: seq<byte>)
    requires |end| == 2 && pos + |line + end| <= |data| && data[pos..pos + |line + end|] == line + end
    ensures data[pos..pos + |line|] == line && data[pos + |line|] == end[0] && data[pos + |line| + 1] == end[1]
  {
    var t := data[pos..pos + |line + end|];
    assert t[..|line|] == line && data[pos..pos + |line|] == t[..|line|];
    assert data[pos + |line|] == t[|line|] && data[pos + |line| + 1] == t[|line| + 1];
  }

  lemma NothingLeft(s: State, data: seq<byte>, stale: byte, pos: nat)
    requires pos >= |data| || s.ended
    ensures Decode(s, data, stale, pos) == s
  {
  }

  // A buffer that ends between pieces means what its pieces mean.
  lemma {:induction false} DecodePieces(s: State, data: seq<byte>, stale: byte, pos: nat, pieces: seq<Piece>)
    requires pos <= |data| && data[pos..] == AllBytes(pieces) && AllFit(s, pieces)
    ensures Decode(s, data, stale, pos) == TakeAll(s, pieces)
    decreases |pieces|
  {
    hide Decode, Bytes, Take, Fits;
    if s.ended {
      EndedStays(s, pieces);
      NothingLeft(s, data, stale, pos);
    } else if pieces == [] {
      NothingLeft(s, data, stale, pos);
    } else {
      var p, rest := pieces[0], pieces[1..];
      var n := |Bytes(p)|;
      assert data[pos..][..n] == Bytes(p) && data[pos..][n..] == AllBytes(rest);
      assert data[pos..pos + n] == Bytes(p) && data[pos + n..] == AllBytes(rest);
      DecodePiece(s, data, stale, pos, p);
      DecodePieces(Take(s, p), data, stale, pos + n, rest);
    }
  }

  lemma {:induction false} EndedStays(s: State, pieces: seq<Piece>)
    requires s.ended
    ensures TakeAll(s, pieces) == s && AllFit(s, pieces)
    decreases |pieces|
  {
    if pieces != [] {
      EndedStays(s, pieces[1..]);
    }
  }

  // ---------------------------------------------------------------- a whole body, any buffers

  function Concat(buffers: seq<seq<Piece>>): seq<Piece> {
    if buffers == [] then [] else buffers[0] + Concat(buffers[1..])
  }

  lemma {:induction false} TakeMore(s: State, a: seq<Piece>, b: seq<Piece>)
    ensures TakeAll(s, a + b) == TakeAll(TakeAll(s, a), b)
    ensures AllFit(s, a + b) <==> AllFit(s, a) && AllFit(TakeAll(s, a), b)
    decreases |a|
  {
    hide Take, Fits;
    if a == [] {
      assert a + b == b;
    } else {
      assert (a + b)[0] == a[0] && (a + b)[1..] == a[1..] + b;
      TakeMore(Take(s, a[0]), a[1..], b);
    }
  }

  // A chunk: its size line and its body. The line may carry leading zeros, digits of either
  // case and extensions, as long as its value is the body's length.
  datatype Chunk = Chunk(line: seq<byte>, body: seq<byte>)

  ghost predicate ChunkOk(c: Chunk) {
    c.line != [] && NoBreak(c.line) && ChunkSize(c.line) == |c.body| > 0
  }

  function ChunkPieces(c: Chunk): seq<Piece> {
    [SizeLine(c.line), Body(c.body), Break]
  }

  // The chunks, the last chunk's size line, the break behind it, and what follows it.
  function BodyPieces(chunks: seq<Chunk>, last: seq<byte>, trailer: seq<Piece>): seq<Piece> {
    if chunks == [] then [SizeLine(last), Break] + trailer
    else ChunkPieces(chunks[0]) + BodyPieces(chunks[1..], last, trailer)
  }

  function Bodies(chunks: seq<Chunk>): seq<byte> {
    if chunks == [] then [] else chunks[0].body + Bodies(chunks[1..])
  }

  ghost predicate Between(s: State) {
    !s.ended && s.chunkLength < 0 && s.chunkHeader == []
  }

  lemma ChunkTaken(s: State, c: Chunk)
    requires Between(s) && ChunkOk(c)
    ensures AllFit(s, ChunkPieces(c)) && Between(TakeAll(s, ChunkPieces(c)))
    ensures TakeAll(s, ChunkPieces(c)).written == s.written + c.body
    ensures TakeAll(s, ChunkPieces(c)).contentwritten == s.contentwritten + |c.body|
  {
    hide ChunkSize;
    var pieces := ChunkPieces(c);
    assert pieces[1..] == [Body(c.body), Break] && pieces[1..][1..] == [Break] && [Break][1..] == [];
    var t := Take(s, SizeLine(c.line));
    var u := Take(t, Body(c.body));
    assert AllFit(u, [Break]) && TakeAll(u, [Break]) == u;
    assert AllFit(t, pieces[1..]) && TakeAll(t, pieces[1..]) == u;
  }

  lemma {:induction false} BodyTaken(s: State, chunks: seq<Chunk>, last: seq<byte>, trailer: seq<Piece>)
    requires Between(s) && (forall c :: c in chunks ==> ChunkOk(c))
    requires last != [] && NoBreak(last) && ChunkSize(last) == 0
    ensures var pieces := BodyPieces(chunks, last, trailer); var t := TakeAll(s, pieces);
      && AllFit(s, pieces) && t.ended && t.written == s.written + Bodies(chunks)
      && t.contentwritten == s.contentwritten + |Bodies(chunks)|
    decreases |chunks|
  {
    hide ChunkSize, ChunkPieces, ChunkOk;
    if chunks == [] {
      var pieces := BodyPieces(chunks, last, trailer);
      var rest := [Break] + trailer;
      assert pieces == [SizeLine(last)] + rest && pieces[1..] == rest;
      EndedStays(Take(s, SizeLine(last)), rest);
    } else {
      var c, more := chunks[0], chunks[1..];
      ChunkTaken(s, c);
      var t := TakeAll(s, ChunkPieces(c));
      BodyTaken(t, more, last, trailer);
      TakeMore(s, ChunkPieces(c), BodyPieces(more, last, trailer));
      assert s.written + c.body + Bodies(more) == s.written + (c.body + Bodies(more));
    }
  }

  // Every buffer of a delivery is handed to write in turn.
  method Deliver(http: Http, buffers: seq<seq<Piece>>, stales: seq<byte>)
    requires |stales| == |buffers| && http.caching && http.contentsize < 0 && http.httpCode != 0
    requires AllFit(http.Chunked(), Concat(buffers))
    modifies http
    ensures http.Chunked() == TakeAll(old(http.Chunked()), Concat(buffers))
  {
    hide Decode, Take, Fits, AllBytes;
    ghost var start := http.Chunked();
    var i := 0;
    assert buffers[..0] == [] && [] + Concat(buffers) == Concat(buffers) && buffers[0..] == buffers;
    while i < |buffers|
      invariant i <= |buffers| && http.caching && http.contentsize < 0 && http.httpCode != 0
      invariant AllFit(http.Chunked(), Concat(buffers[i..]))
      invariant TakeAll(http.Chunked(), Concat(buffers[i..])) == TakeAll(start, Concat(buffers))
    {
      ghost var s, rest := http.Chunked(), buffers[i + 1..];
      assert buffers[i..] == [buffers[i]] + rest && buffers[i..][1..] == rest;
      TakeMore(s, buffers[i], Concat(rest));
      var data := AllBytes(buffers[i]);
      assert data[0..] == data;
      DecodePieces(s, data, stales[i], 0, buffers[i]);
      if s.ended { EndedStays(s, buffers[i]); }
      var r := http.Write(data, stales[i]);
      i := i + 1;
    }
    assert buffers[i..] == [];
  }

  // Decoding inverts the coding: whatever the chunks, and however the pieces are grouped into
  // buffers, the cache gets the bodies one after the other and the end is seen.
  method ReceiveChunked(http: Http, chunks: seq<Chunk>, last: seq<byte>, trailer: seq<Piece>,
                        buffers: seq<seq<Piece>>, stales: seq<byte>)
    requires |stales| == |buffers| && http.caching && http.contentsize < 0 && http.httpCode != 0
    requires Between(http.Chunked()) && (forall c :: c in chunks ==> ChunkOk(c))
    requires last != [] && NoBreak(last) && ChunkSize(last) == 0
    requires Concat(buffers) == BodyPieces(chunks, last, trailer)
    modifies http
    ensures http.endDetected && http.tempCache == old(http.tempCache) + Bodies(chunks)
    ensures http.contentwritten == old(http.contentwritten) + |Bodies(chunks)|
  {
    BodyTaken(http.Chunked(), chunks, last, trailer);
    Deliver(http, buffers, stales);
  }

  // The chunks that a sender makes of bodies.
  function Encode(bodies: seq<seq<byte>>): seq<Chunk> {
    if bodies == [] then [] else [Chunk(HexLine(|bodies[0]|), bodies[0])] + Encode(bodies[1..])
  }

  lemma {:induction false} EncodeOk(bodies: seq<seq<byte>>)
    requires forall b :: b in bodies ==> 0 < |b| < 0x8000_0000_0000_0000
    ensures forall c :: c in Encode(bodies) ==> ChunkOk(c)
    ensures Bodies(Encode(bodies)) == Flat(bodies)
    ensures ChunkSize(HexLine(0)) == 0 && NoBreak(HexLine(0))
  {
    HexLineSize(0);
    hide HexLine, ChunkSize;
    if bodies != [] {
      assert bodies[0] in bodies;
      HexLineSize(|bodies[0]|);
      EncodeOk(bodies[1..]);
      assert Encode(bodies)[1..] == Encode(bodies[1..]);
    }
  }

  // A chunk as a sender may write it.
  datatype Sent = Sent(digits: seq<byte>, values: seq<nat>, extension: seq<byte>, body: seq<byte>)

  ghost predicate SentOk(c: Sent) {
    && Stated(c.digits, c.values, c.extension) && NoBreak(c.extension)
    && Positional(c.values) == |c.body| < 0x8000_0000_0000_0000
  }

  function Line(c: Sent): seq<byte> {
    c.digits + c.extension
  }

  function Written(chunks: seq<Sent>): seq<Chunk> {
    if chunks == [] then [] else [Chunk(Line(chunks[0]), chunks[0].body)] + Written(chunks[1..])
  }

  function SentBodies(chunks: seq<Sent>): seq<byte> {
    if chunks == [] then [] else chunks[0].body + SentBodies(chunks[1..])
  }

  lemma {:induction false} WrittenOk(chunks: seq<Sent>)
    requires forall c :: c in chunks ==> SentOk(c) && c.body != []
    ensures forall c :: c in Written(chunks) ==> ChunkOk(c)
    ensures Bodies(Written(chunks)) == SentBodies(chunks)
  {
    hide SentOk, ChunkOk;
    if chunks != [] {
      SentIsOk(chunks[0]);
      WrittenOk(chunks[1..]);
      assert Written(chunks)[1..] == Written(chunks[1..]);
    }
  }

  lemma SentIsOk(c: Sent)
    requires SentOk(c)
    ensures Line(c) != [] && (if c.body == [] then NoBreak(Line(c)) && ChunkSize(Line(c)) == 0 else ChunkOk(Chunk(Line(c), c.body)))
  {
    hide ChunkSize, Positional;
    StatedSize(c.digits, c.values, c.extension);
    SentNoBreak(c);
  }

  lemma SentNoBreak(c: Sent)
    requires SentOk(c)
    ensures NoBreak(Line(c))
  {
    hide Positional;
    var line := Line(c);
    forall i | 0 <= i < |line| ensures !IsBreak(line[i]) {
      if i < |c.digits| {
        assert line[i] == c.digits[i] && Shows(c.digits[i], c.values[i]);
        ShowsDigit(c.digits[i], c.values[i]);
      } else {
        assert line[i] == c.extension[i - |c.digits|];
      }
    }
  }

  // Chunks of any bodies under size lines that state their lengths, and a last chunk that states
  // zero: the cache gets the bodies one after the other, and the end is seen.
  method ReceiveSent(http: Http, chunks: seq<Sent>, last: Sent, trailer: seq<Piece>, buffers: seq<seq<Piece>>, stales: seq<byte>)
    requires |stales| == |buffers| && http.caching && http.contentsize < 0 && http.httpCode != 0
    requires Between(http.Chunked()) && (forall c :: c in chunks ==> SentOk(c) && c.body != []) && SentOk(last) && last.body == []
    requires Concat(buffers) == BodyPieces(Written(chunks), Line(last), trailer)
    modifies http
    ensures http.endDetected && http.tempCache == old(http.tempCache) + SentBodies(chunks)
    ensures http.contentwritten == old(http.contentwritten) + |SentBodies(chunks)|
  {
    WrittenOk(chunks);
    SentIsOk(last);
    ReceiveChunked(http, Written(chunks), Line(last), trailer, buffers, stales);
  }

  function Flat(bodies: seq<seq<byte>>): seq<byte> {
    if bodies == [] then [] else bodies[0] + Flat(bodies[1..])
  }

  // ---------------------------------------------------------------- where a buffer must not end

  // What a buffer adds to the cache comes from it; with a size line to read first it is less
  // than the buffer.
  lemma {:induction false} DecodeBound(s: State, data: seq<byte>, stale: byte, pos: nat)
    ensures |Decode(s, data, stale, pos).written| <= |s.written| + (if pos < |data| then |data| - pos else 0)
    ensures pos < |data| && s.chunkLength <= 0 ==> |Decode(s, data, stale, pos).written| < |s.written| + |data| - pos
    decreases |data| - pos, 1
  {
    hide ChunkSize, LineEnd;
    if pos < |data| && !s.ended {
      if 0 < s.chunkLength <= |data| - pos {
        var next := pos + s.chunkLength;
        DecodeBound(s.(chunkLength := -1, written := s.written + data[pos..next],
                       contentwritten := s.contentwritten + s.chunkLength), data, stale, next);
      } else if s.chunkLength <= 0 {
        HeaderBound(s, data, stale, SkipBreaks(data, stale, pos));
      }
    }
  }

  lemma HeaderBound(s: State, data: seq<byte>, stale: byte, p: nat)
    requires p < |data| ==> !IsBreak(data[p])
    ensures p < |data| ==> |Header(s, data, stale, p).written| < |s.written| + |data| - p
    ensures p >= |data| ==> Header(s, data, stale, p).written == s.written
    decreases |data| - p, 0
  {
    hide ChunkSize;
    if p < |data| && LineEnd(data, p) < |data| {
      var e := LineEnd(data, p);
      assert e > p;
      var header := if s.chunkHeader == [] then [] else s.chunkHeader + data[..e - 1];
      var n := ChunkSize(if s.chunkHeader == [] then data[p..e] else header);
      if n != 0 {
        DecodeBound(s.(chunkHeader := header, chunkLength := n), data, stale, PassBreak(data, stale, e));
      }
    }
  }

  // A chunk's body in two buffers: behind the first one the decoder waits for a size line as
  // if the chunk were complete, so the body arrives whole exactly when nothing of it is left.
  lemma CutBody(s: State, first: seq<byte>, second: seq<byte>, stale: byte, stale2: byte)
    requires !s.ended && s.chunkLength == |first| + |second| && |first| > 0
    ensures var t := Decode(s, first, stale, 0);
      && t.chunkLength == -1 && t.written == s.written + first && !t.ended
      && (Decode(t, second, stale2, 0).written == s.written + first + second <==> second == [])
  {
    hide Header;
    assert first[0..] == first;
    var t := Decode(s, first, stale, 0);
    if second == [] {
      assert first[0..|first|] == first;
      NothingLeft(t, first, stale, |first|);
      NothingLeft(t, second, stale2, 0);
      assert s.written + first + second == s.written + first;
    } else {
      DecodeBound(t, second, stale2, 0);
    }
  }

  // "hello" delivered as "he" and "llo" is cached as "he".
  lemma CutExample(stale: byte)
    ensures var s := State(5, [], [], 0, false);
      var t := Decode(s, [104, 101], stale, 0);
      t.written == [104, 101] && Decode(t, [108, 108, 111], stale, 0).written != [104, 101, 108, 108, 111]
  {
    CutBody(State(5, [], [], 0, false), [104, 101], [108, 108, 111], stale, stale);
  }

  // A size line in two buffers: the last character of its second part is lost; when only its
  // break is in the second buffer, no size is read there.
  lemma CutSizeLine(s: State, first: seq<byte>, second: seq<byte>, stale: byte, stale2: byte)
    requires Between(s) && first != [] && NoBreak(first) && NoBreak(second)
    ensures var t := Decode(s, first, stale, 0);
      && t == s.(chunkHeader := first)
      && Decode(t, second + [CR, LF], stale2, 0) ==
         if second == [] then t
         else
           var header := first + second[..|second| - 1];
           t.(chunkHeader := header, chunkLength := ChunkSize(header), ended := ChunkSize(header) == 0)
  {
    hide ChunkSize;
    var data := second + [CR, LF];
    NoBreakAhead(first, 0);
    assert SkipBreaks(first, stale, 0) == 0 && first[0..] == first;
    var t := Decode(s, first, stale, 0);
    assert t == Header(s, first, stale, 0) == s.(chunkHeader := first);
    if second == [] {
      assert SkipBreaks(data, stale2, 0) == SkipBreaks(data, stale2, 2) == 2;
    } else {
      assert data[0] == second[0] && SkipBreaks(data, stale2, 0) == 0;
      assert data[0..|second|] == second && data[..|second| - 1] == second[..|second| - 1];
      LineEndIs(data, 0, |second|);
      var header := first + second[..|second| - 1];
      NothingLeft(t.(chunkHeader := header, chunkLength := ChunkSize(header)), data, stale2, |data|);
      assert data[|second|] == CR && data[|second| + 1] == LF;
      assert PassBreak(data, stale2, |second|) == |data|;
      assert Decode(t, data, stale2, 0) == Header(t, data, stale2, 0);
    }
  }

  lemma {:induction false} NoBreakAhead(data: seq<byte>, pos: nat)
    requires pos <= |data| && NoBreak(data)
    ensures LineEnd(data, pos) == |data|
    decreases |data| - pos
  {
    if pos < |data| {
      NoBreakAhead(data, pos + 1);
    }
  }
}
