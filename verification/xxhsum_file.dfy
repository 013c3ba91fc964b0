// A checksum file of xxhsum: its lines are read into a buffer that grows up to a limit, and parsed.
module XxhsumFile {
  import opened Words
  import opened Wrappers
  import opened XxhsumLine

  const DEFAULT_LINE_LENGTH: nat := 4115
  const MAX_LINE_LENGTH: nat := 32768

  datatype GetLineResult = LineOk | Eof | ExceedMaxLineLength

  // The next line of a stream and what is left behind it. A line and its line feed have fewer
  // than 32 KB together; a last line without one ends with the stream.
  function NextLine(text: string): (r: (GetLineResult, string, string))
    ensures r.0.LineOk? ==> |r.2| < |text|
  {
    var n := IndexOf(text, '\n');
    var behind := if n < |text| then n + 1 else n;
    if text == "" then (Eof, "", "")
    else if behind >= MAX_LINE_LENGTH then (ExceedMaxLineLength, "", "")
    else (LineOk, text[..n], text[behind..])
  }

  lemma {:induction false} IndexIs(text: string, c: char, n: nat)
    requires n <= |text| && c !in text[..n] && (n < |text| ==> text[n] == c)
    ensures IndexOf(text, c) == n
  {
    if n > 0 {
      assert text[0] == text[..n][0] && text[1..][..n - 1] == text[..n][1..];
      IndexIs(text[1..], c, n - 1);
    }
  }

  lemma IndexBehind(text: string, c: char, n: nat)
    requires n <= |text| && c !in text[..n]
    ensures IndexOf(text, c) >= n
  {
    assert forall k :: 0 <= k < n ==> text[..n][k] == text[k];
  }

  lemma TooLong(text: string, len: nat)
    requires len < |text| && '\n' !in text[..len] && len + 1 >= MAX_LINE_LENGTH
    ensures NextLine(text).0 == ExceedMaxLineLength
  {
    hide IndexOf;
    IndexBehind(text, '\n', len);
  }

  lemma LineIs(text: string, len: nat)
    requires len <= |text| && '\n' !in text[..len]
    requires if len < |text| then text[len] == '\n' && len + 1 < MAX_LINE_LENGTH else len < MAX_LINE_LENGTH
    ensures NextLine(text) ==
      if text == "" then (Eof, "", "") else (LineOk, text[..len], if len < |text| then text[len + 1..] else [])
  {
    hide IndexOf;
    IndexIs(text, '\n', len);
  }

  // The buffer is made half as large again, up to the limit.
  method Grow(line: array<char>, len: nat) returns (grown: array<char>)
    requires len < line.Length < MAX_LINE_LENGTH
    ensures fresh(grown) && line.Length < grown.Length <= MAX_LINE_LENGTH && grown[..len] == line[..len]
  {
    var newBufSize := line.Length + line.Length / 2 + 1;
    if newBufSize > MAX_LINE_LENGTH {
      newBufSize := MAX_LINE_LENGTH;
    }
    grown := new char[newBufSize](_ => '\0');
    forall i | 0 <= i < len {
      grown[i] := line[i];
    }
  }

  // getLine, from a buffer of any size that it left before, or from none.
  method GetLine(buffer: array?<char>, text: string) returns (result: GetLineResult, line: array<char>, rest: string)
    requires buffer != null ==> buffer.Length <= MAX_LINE_LENGTH
    modifies if buffer == null then {} else {buffer}
    ensures (line == buffer || fresh(line)) && line.Length <= MAX_LINE_LENGTH
    ensures result == NextLine(text).0
    ensures result.LineOk? ==> '\0' in line[..] && rest == NextLine(text).2
    ensures result.LineOk? ==> CString(line[..], 0) == CString(NextLine(text).1 + ['\0'], 0)
  {
    hide IndexOf, CString, NextLine;
    if buffer == null || buffer.Length < 1 {
      line := new char[DEFAULT_LINE_LENGTH](_ => '\0');
    } else {
      line := buffer;
    }
    var len := 0;
    result, rest := LineOk, [];
    while len < |text|
      invariant len <= |text| && '\n' !in text[..len] && len < line.Length <= MAX_LINE_LENGTH
      invariant line == buffer || fresh(line)
      invariant line[..len] == text[..len]
      decreases |text| - len
    {
      var full;
      line, full := MakeSpace(line, len);
      if full {
        TooLong(text, len);
        return ExceedMaxLineLength, line, [];
      }
      if text[len] == '\n' {
        rest := text[len + 1..];
        break;
      }
      line[len] := text[len];
      len := len + 1;
    }
    LineIs(text, len);
    if text == [] {
      result := Eof;
    }
    line[len] := '\0';
    SameText(line[..], text[..len]);
  }

  // Space for len + 1 characters, for the final NUL.
  method MakeSpace(buffer: array<char>, len: nat) returns (line: array<char>, full: bool)
    requires len < buffer.Length <= MAX_LINE_LENGTH
    ensures full <==> len + 1 >= MAX_LINE_LENGTH
    ensures (line == buffer || fresh(line)) && len < line.Length <= MAX_LINE_LENGTH && line[..len] == buffer[..len]
    ensures !full ==> len + 1 < line.Length
  {
    line, full := buffer, false;
    if len + 1 >= line.Length {
      if line.Length == MAX_LINE_LENGTH {
        full := true;
      } else {
        line := Grow(line, len);
      }
    }
  }

  // What lies behind the NUL plays no part.
  lemma SameText(s: seq<char>, text: string)
    requires |text| < |s| && s[..|text|] == text && s[|text|] == '\0'
    ensures CString(s, 0) == CString(text + ['\0'], 0)
  {
    hide CString;
    var t := text + ['\0'];
    var n := IndexOf(t, '\0');
    assert t[|text|] == '\0' && forall k :: 0 <= k < n ==> t[..n][k] == t[k];
    assert s[..n] == t[..n] && s[n] == t[n];
    CStringIs(s, 0, n);
    CStringIs(t, 0, n);
  }

  // ---------------------------------------------------------------- a whole file

  // The lines of a stream, each parsed as the buffer that holds it, up to the end or to a line
  // that is too long; and whether the end was reached.
  function ParseFile(text: string, rev: bool): (seq<Option<Line>>, bool)
    decreases |text|
  {
    var (result, line, rest) := NextLine(text);
    match result
    case Eof => ([], true)
    case ExceedMaxLineLength => ([], false)
    case LineOk =>
      var (lines, complete) := ParseFile(rest, rev);
      ([Parse(CString(line + ['\0'], 0), rev)] + lines, complete)
  }

  // parseFile1, up to what is done with each line: the buffer is kept from line to line.
  method ParseFile1(text: string, rev: bool) returns (lines: seq<Option<Line>>, complete: bool)
    ensures (lines, complete) == ParseFile(text, rev)
  {
    hide Filled, Parse, CString, NextLine;
    var parsed := new ParsedLine();
    var buffer: array?<char> := null;
    var rest := text;
    lines, complete := [], true;
    assert [] + ParseFile(rest, rev).0 == ParseFile(rest, rev).0;
    while true
      invariant complete
      invariant fresh(parsed) && fresh(parsed.canonical) && parsed.canonical.Length == 16
      invariant buffer != null ==> fresh(buffer) && buffer.Length <= MAX_LINE_LENGTH
      invariant ParseFile(text, rev) == (lines + ParseFile(rest, rev).0, ParseFile(rest, rev).1)
      decreases |rest|
    {
      var result, line, behind := GetLine(buffer, rest);
      buffer := line;
      ghost var more := ParseFile(behind, rev).0;
      if result == Eof {
        assert lines + [] == lines;
        return;
      } else if result == ExceedMaxLineLength {
        assert lines + [] == lines;
        return lines, false;
      }
      var one := ParseOne(parsed, line, rev);
      assert (lines + [one]) + more == lines + ([one] + more);
      lines := lines + [one];
      rest := behind;
    }
  }

  // A line in the buffer, parsed in place; what the struct says of it.
  method ParseOne(parsed: ParsedLine, line: array<char>, rev: bool) returns (one: Option<Line>)
    requires '\0' in line[..] && parsed.canonical.Length == 16
    modifies parsed, parsed.canonical, line
    ensures one == Parse(old(CString(line[..], 0)), rev)
  {
    hide Parse, CString;
    var ok := ParseLine(parsed, line, rev);
    if !ok {
      return None;
    }
    one := Some(Line(parsed.canonical[..parsed.xxhBits / 8], CString(line[..], parsed.filename.value), parsed.xxhBits));
  }

  // ---------------------------------------------------------------- printing a file and reading it back

  datatype Entry = Entry(canonical: seq<byte>, algo: AlgoSelected, filename: string, bsd: bool, littleEndian: bool)

  // A hash of the algorithm's length, and a name that a line can carry; GNU lines are printed
  // in the byte order that the reader is told.
  ghost predicate Printable(e: Entry, rev: bool) {
    && |e.canonical| == HashLength(e.algo) && '\n' !in e.filename && '\0' !in e.filename
    && (!e.bsd ==> e.littleEndian == rev)
  }

  function PrintEntry(e: Entry): string {
    if e.bsd then BsdLine(e.filename, e.canonical, e.algo, e.littleEndian)
    else GnuLine(e.filename, e.canonical, e.littleEndian)
  }

  function PrintFile(entries: seq<Entry>): string {
    if entries == [] then "" else PrintEntry(entries[0]) + "\n" + PrintFile(entries[1..])
  }

  function Lines(entries: seq<Entry>): seq<Option<Line>> {
    if entries == [] then []
    else [Some(Line(entries[0].canonical, entries[0].filename, 8 * |entries[0].canonical|))] + Lines(entries[1..])
  }

  lemma EntryChars(e: Entry, c: char)
    requires (c == '\n' || c == '\0') && c !in e.filename
    ensures c !in PrintEntry(e)
  {
    hide HexString;
    DigitsHaveNo(Displayed(e.canonical, e.littleEndian), c);
  }

  lemma EntryParses(e: Entry, rev: bool)
    requires Printable(e, rev)
    ensures Parse(PrintEntry(e), rev) == Some(Line(e.canonical, e.filename, 8 * |e.canonical|))
  {
    hide Parse, GnuLine, BsdLine;
    if e.bsd {
      RoundTripBsd(e.canonical, e.algo, e.filename, e.littleEndian, rev);
    } else {
      RoundTripGnu(e.canonical, e.algo, e.filename, e.littleEndian);
    }
  }

  lemma WholeLine(line: string)
    requires '\0' !in line
    ensures CString(line + ['\0'], 0) == line
  {
    var s := line + ['\0'];
    assert s[0..|line|] == line;
    CStringIs(s, 0, |line|);
  }

  // The printed line and its line feed leave room in the buffer.
  predicate Fits(e: Entry) {
    |PrintEntry(e)| + 1 < MAX_LINE_LENGTH
  }

  // How many lines come before the first that does not fit.
  function Fitting(entries: seq<Entry>): nat {
    if entries == [] || !Fits(entries[0]) then 0 else 1 + Fitting(entries[1..])
  }

  lemma {:induction false} FittingAll(entries: seq<Entry>)
    ensures Fitting(entries) <= |entries|
    ensures Fitting(entries) == |entries| <==> forall e :: e in entries ==> Fits(e)
  {
    hide Fits;
    if entries != [] {
      FittingAll(entries[1..]);
      assert entries[0] in entries && entries == [entries[0]] + entries[1..];
    }
  }

  lemma FirstLine(e: Entry, more: string, rev: bool)
    requires Printable(e, rev)
    ensures var line := PrintEntry(e); var next := NextLine(line + "\n" + more);
      if Fits(e) then
        next == (LineOk, line, more) &&
        Parse(CString(line + ['\0'], 0), rev) == Some(Line(e.canonical, e.filename, 8 * |e.canonical|))
      else next.0 == ExceedMaxLineLength
  {
    hide Parse, PrintEntry, IndexOf, CString, Printable;
    var line := PrintEntry(e);
    var text := line + ['\n'] + more;
    EntryText(e, rev);
    EntryParses(e, rev);
    WholeLine(line);
    FirstIs(line, '\n', more);
    assert text[..|line|] == line && text[|line| + 1..] == more;
  }

  // A checksum file of any entries, of both styles and all widths, reads back line for line, up
  // to the first line of 32 KB, at which the reader gives up.
  lemma {:induction false} FileReadsBack(entries: seq<Entry>, rev: bool)
    requires forall e :: e in entries ==> Printable(e, rev)
    ensures Fitting(entries) <= |entries|
    ensures ParseFile(PrintFile(entries), rev) == (Lines(entries[..Fitting(entries)]), Fitting(entries) == |entries|)
  {
    hide Parse, PrintEntry, NextLine, CString, Printable, Fits;
    FittingAll(entries);
    if entries != [] {
      var e, rest := entries[0], entries[1..];
      assert e in entries;
      FirstLine(e, PrintFile(rest), rev);
      if Fits(e) {
        FileReadsBack(rest, rev);
        var k := Fitting(entries);
        assert entries[..k][0] == e && entries[..k][1..] == rest[..k - 1];
      }
    } else {
      EmptyFile(rev);
    }
  }

  lemma EmptyFile(rev: bool)
    ensures ParseFile("", rev) == ([], true)
  {
  }

  // So the file comes back whole if and only if every line of it, with its line feed, has
  // fewer than 32 KB.
  lemma FileRoundTrip(entries: seq<Entry>, rev: bool)
    requires forall e :: e in entries ==> Printable(e, rev)
    ensures ParseFile(PrintFile(entries), rev) == (Lines(entries), true) <==>
      forall e :: e in entries ==> Fits(e)
  {
    hide Printable, Fits, ParseFile;
    FileReadsBack(entries, rev);
    FittingAll(entries);
    assert entries[..|entries|] == entries;
  }

  lemma EntryText(e: Entry, rev: bool)
    requires Printable(e, rev)
    ensures '\n' !in PrintEntry(e) && '\0' !in PrintEntry(e)
  {
    hide PrintEntry;
    EntryChars(e, '\n');
    EntryChars(e, '\0');
  }
}
