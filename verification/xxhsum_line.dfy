// The checksum line of xxhsum: printing it in the GNU and the BSD style, big or little
// endian, and parsing it back.
module XxhsumLine {
  import opened Words
  import opened Wrappers

  // ---------------------------------------------------------------- hexadecimal digits

  const DIGITS: string := "0123456789abcdef"

  // The two characters that "%02x" prints for a byte.
  function Hex(b: byte): (r: string)
    ensures |r| == 2 && HexDigit(r[0]) && HexDigit(r[1])
  {
    [DIGITS[b / 16], DIGITS[b % 16]]
  }

  predicate HexDigit(c: char) {
    '0' <= c <= '9' || 'a' <= c <= 'f'
  }

  // charToHex: the value of a digit of either case, or -1.
  function CharToHex(c: char): (r: int)
    ensures -1 <= r < 16
  {
    if '0' <= c <= '9' then (c as int) - ('0' as int)
    else if 'A' <= c <= 'F' then (c as int) - ('A' as int) + 10
    else if 'a' <= c <= 'f' then (c as int) - ('a' as int) + 10
    else -1
  }

  lemma DigitValue(d: nat)
    requires d < 16
    ensures CharToHex(DIGITS[d]) == d && HexDigit(DIGITS[d])
  {
  }

  const UPPER_DIGITS: string := "0123456789ABCDEF"

  // The character of the digit d, in either case.
  predicate Shows(c: char, d: nat) {
    d < 16 && (c == DIGITS[d] || c == UPPER_DIGITS[d])
  }

  // A digit's value is its place, in either case; whatever is no digit has none.
  lemma ShowsDigit(c: char, d: nat)
    ensures Shows(c, d) <==> d < 16 && CharToHex(c) == d
  {
  }

  lemma HexValue(b: byte)
    ensures CharToHex(Hex(b)[0]) == b / 16 && CharToHex(Hex(b)[1]) == b % 16
    ensures CharToHex(Hex(b)[0]) * 16 + CharToHex(Hex(b)[1]) == b
  {
    DigitValue(b / 16);
    DigitValue(b % 16);
  }

  function HexString(bytes: seq<byte>): (r: string)
    ensures |r| == 2 * |bytes|
  {
    if bytes == [] then "" else Hex(bytes[0]) + HexString(bytes[1..])
  }

  lemma {:induction false} HexStringMore(a: seq<byte>, b: seq<byte>)
    ensures HexString(a + b) == HexString(a) + HexString(b)
  {
    if a == [] {
      assert a + b == b;
    } else {
      assert (a + b)[1..] == a[1..] + b;
      HexStringMore(a[1..], b);
    }
  }

  lemma HexStringNext(bytes: seq<byte>, k: nat)
    requires k < |bytes|
    ensures HexString(bytes[..k + 1]) == HexString(bytes[..k]) + Hex(bytes[k])
  {
    assert bytes[..k + 1] == bytes[..k] + [bytes[k]];
    HexStringMore(bytes[..k], [bytes[k]]);
    assert [bytes[k]][1..] == [];
  }

  // The k-th byte is printed at position 2k.
  lemma {:induction false} HexStringAt(bytes: seq<byte>, k: nat)
    requires k < |bytes|
    ensures HexString(bytes)[2 * k] == Hex(bytes[k])[0] && HexString(bytes)[2 * k + 1] == Hex(bytes[k])[1]
  {
    hide Hex;
    if k > 0 {
      HexStringAt(bytes[1..], k - 1);
    }
  }

  lemma {:induction false} HexStringDigits(bytes: seq<byte>)
    ensures forall i :: 0 <= i < |HexString(bytes)| ==> HexDigit(HexString(bytes)[i])
  {
    if bytes != [] {
      HexStringDigits(bytes[1..]);
    }
  }

  // ---------------------------------------------------------------- printing

  datatype AlgoSelected = XXH32 | XXH64 | XXH128

  function HashLength(algo: AlgoSelected): nat {
    match algo case XXH32 => 4 case XXH64 => 8 case XXH128 => 16
  }

  function Name(algo: AlgoSelected, littleEndian: bool): string {
    match algo
    case XXH32 => if littleEndian then "XXH32_LE" else "XXH32"
    case XXH64 => if littleEndian then "XXH64_LE" else "XXH64"
    case XXH128 => if littleEndian then "XXH128_LE" else "XXH128"
  }

  function Decimal(n: nat): string {
    if n < 10 then [(48 + n) as char] else Decimal(n / 10) + [(48 + n % 10) as char]
  }

  // The number in an algorithm's name is the width of its printed digest, at four bits a digit.
  lemma NameTellsWidth(algo: AlgoSelected, littleEndian: bool, canonical: seq<byte>)
    requires |canonical| == HashLength(algo)
    ensures Name(algo, littleEndian) ==
      "XXH" + Decimal(4 * |HexString(Displayed(canonical, littleEndian))|) + if littleEndian then "_LE" else ""
  {
    hide HexString, Displayed;
    assert Decimal(32) == "32" && Decimal(64) == "64";
    assert Decimal(12) == "12" && Decimal(128) == "128";
  }

  // The bytes of a canonical hash in the order in which they are displayed.
  function Displayed(canonical: seq<byte>, littleEndian: bool): (r: seq<byte>)
    ensures |r| == |canonical|
  {
    if littleEndian then Reverse(canonical) else canonical
  }

  function GnuLine(filename: string, canonical: seq<byte>, littleEndian: bool): string {
    HexString(Displayed(canonical, littleEndian)) + "  " + filename
  }

  function BsdLine(filename: string, canonical: seq<byte>, algo: AlgoSelected, littleEndian: bool): string {
    Name(algo, littleEndian) + " (" + filename + ") = " + HexString(Displayed(canonical, littleEndian))
  }

  method DisplayBigEndian(ptr: seq<byte>) returns (out: string)
    ensures out == HexString(ptr)
  {
    out := "";
    var idx := 0;
    while idx < |ptr|
      invariant idx <= |ptr| && out == HexString(ptr[..idx])
    {
      HexStringNext(ptr, idx);
      out := out + Hex(ptr[idx]);
      idx := idx + 1;
    }
    assert ptr[..idx] == ptr;
  }

  // The index is a size_t: below zero it wraps around to its largest value, which ends the loop.
  method DisplayLittleEndian(ptr: seq<byte>) returns (out: string)
    requires 0 < |ptr| < W64
    ensures out == HexString(Reverse(ptr))
  {
    out := "";
    var idx := |ptr| - 1;
    ghost var left: nat := |ptr|;
    var r := Reverse(ptr);
    while idx < |ptr|
      invariant left <= |ptr| && idx == if left == 0 then W64 - 1 else left - 1
      invariant out == HexString(r[..|ptr| - left])
      decreases left
    {
      HexStringNext(r, |ptr| - left);
      out := out + Hex(ptr[idx]);
      left := left - 1;
      idx := if idx == 0 then W64 - 1 else idx - 1;
    }
    assert r[..|ptr|] == r;
  }

  method PrintLineGnu(filename: string, canonical: seq<byte>, algo: AlgoSelected, littleEndian: bool) returns (out: string)
    requires |canonical| == HashLength(algo)
    ensures out == GnuLine(filename, canonical, littleEndian) + "\n"
  {
    if littleEndian {
      out := DisplayLittleEndian(canonical);
    } else {
      out := DisplayBigEndian(canonical);
    }
    out := out + "  " + filename + "\n";
  }

  method PrintLineBsd(filename: string, canonical: seq<byte>, algo: AlgoSelected, littleEndian: bool) returns (out: string)
    requires |canonical| == HashLength(algo)
    ensures out == BsdLine(filename, canonical, algo, littleEndian) + "\n"
  {
    var hash;
    if littleEndian {
      hash := DisplayLittleEndian(canonical);
    } else {
      hash := DisplayBigEndian(canonical);
    }
    out := Name(algo, littleEndian) + " (" + filename + ") = " + hash + "\n";
  }

  // ---------------------------------------------------------------- C strings

  // The text at an index of a buffer, up to the first NUL.
  function CString(s: seq<char>, from: nat): (r: string)
    requires from <= |s|
    ensures from + |r| <= |s| && r == s[from..from + |r|]
    ensures '\0' !in r && (from + |r| < |s| ==> s[from + |r|] == '\0')
    decreases |s| - from
  {
    if from == |s| || s[from] == '\0' then [] else [s[from]] + CString(s, from + 1)
  }

  lemma {:induction false} CStringIs(s: seq<char>, from: nat, end: nat)
    requires from <= end < |s| && s[end] == '\0' && '\0' !in s[from..end]
    ensures CString(s, from) == s[from..end]
    decreases end - from
  {
    if from < end {
      assert s[from] == s[from..end][0];
      assert s[from + 1..end] == s[from..end][1..];
      CStringIs(s, from + 1, end);
    }
  }

  // The position of the first c, the length when there is none.
  function IndexOf(text: string, c: char): (r: nat)
    ensures r <= |text| && c !in text[..r] && (r < |text| ==> text[r] == c)
  {
    if text == "" || text[0] == c then 0 else 1 + IndexOf(text[1..], c)
  }

  // The position of the last c.
  function LastIndexOf(text: string, c: char): (r: nat)
    requires c in text
    ensures r < |text| && text[r] == c && c !in text[r + 1..]
  {
    if text[|text| - 1] == c then |text| - 1
    else
      assert text == text[..|text| - 1] + [text[|text| - 1]];
      LastIndexOf(text[..|text| - 1], c)
  }

  predicate OccursAt(text: string, word: string, i: nat) {
    i + |word| <= |text| && text[i..i + |word|] == word
  }

  predicate Contains(text: string, word: string) {
    exists i :: 0 <= i <= |text| && OccursAt(text, word, i)
  }

  // ---------------------------------------------------------------- parsing: what it computes

  predicate HexText(hash: string) {
    forall i :: 0 <= i < |hash| ==> CharToHex(hash[i]) >= 0
  }

  function ByteAt(hash: string, j: nat): byte
    requires HexText(hash) && 2 * j + 1 < |hash|
  {
    CharToHex(hash[2 * j]) * 16 + CharToHex(hash[2 * j + 1])
  }

  // The bytes that an even number of digits stands for, read from the end when reversed.
  function FromHex(hash: string, rev: bool): (r: seq<byte>)
    requires HexText(hash) && |hash| % 2 == 0
    ensures |r| == |hash| / 2
    ensures forall i :: 0 <= i < |r| ==> r[i] == ByteAt(hash, if rev then |r| - 1 - i else i)
  {
    var n := |hash| / 2;
    seq<byte>(n, i requires 0 <= i < n => ByteAt(hash, if rev then n - 1 - i else i))
  }

  datatype Line = Line(canonical: seq<byte>, filename: string, xxhBits: nat)

  function ParseHash(hash: string, filename: string, rev: bool): Option<Line> {
    if (|hash| == 8 || |hash| == 16 || |hash| == 32) && HexText(hash) then
      Some(Line(FromHex(hash, rev), filename, 4 * |hash|))
    else None
  }

  function Parse(text: string, rev: bool): Option<Line> {
    var p := IndexOf(text, ' ');
    if p + 1 >= |text| then None
    else if text[p + 1] == '(' then
      var q := LastIndexOf(text, ' ');
      if q - p < 5 || text[q - 1] != '=' || text[q - 2] != ' ' || text[q - 3] != ')' then None
      else BsdParts(text, p, q)
    else ParseHash(text[..p], text[p + 2..], rev)
  }

  // ---------------------------------------------------------------- round trip

  lemma ByteAtHex(bytes: seq<byte>, j: nat)
    requires j < |bytes| && HexText(HexString(bytes))
    ensures ByteAt(HexString(bytes), j) == bytes[j]
  {
    hide CharToHex, Hex, HexString;
    HexStringAt(bytes, j);
    HexValue(bytes[j]);
  }

  lemma FromHexOfHex(bytes: seq<byte>, rev: bool)
    ensures var hash := HexString(Displayed(bytes, rev));
      HexText(hash) && FromHex(hash, rev) == bytes
  {
    hide HexString, Reverse, ByteAt;
    var shown := Displayed(bytes, rev);
    var hash := HexString(shown);
    HexStringDigits(shown);
    var n := |bytes|;
    assert |hash| / 2 == n;
    forall i | 0 <= i < n ensures FromHex(hash, rev)[i] == bytes[i] {
      ByteAtHex(shown, if rev then n - 1 - i else i);
    }
  }

  // Two characters that show a byte, in digits of either case.
  predicate PairShows(hash: string, k: nat, b: byte) {
    2 * k + 1 < |hash| && Shows(hash[2 * k], b / 16) && Shows(hash[2 * k + 1], b % 16)
  }

  // Text that shows bytes, pair by pair.
  predicate BytesShow(hash: string, shown: seq<byte>) {
    |hash| == 2 * |shown| && forall k :: 0 <= k < |shown| ==> PairShows(hash, k, shown[k])
  }

  lemma PairValue(hash: string, k: nat, b: byte)
    requires PairShows(hash, k, b)
    ensures CharToHex(hash[2 * k]) == b / 16 && CharToHex(hash[2 * k + 1]) == b % 16
  {
    hide CharToHex, Shows;
    ShowsDigit(hash[2 * k], b / 16);
    ShowsDigit(hash[2 * k + 1], b % 16);
  }

  lemma PairsText(hash: string, shown: seq<byte>)
    requires BytesShow(hash, shown)
    ensures HexText(hash)
  {
    hide CharToHex, PairShows;
    forall i | 0 <= i < |hash| ensures CharToHex(hash[i]) >= 0 {
      PairValue(hash, i / 2, shown[i / 2]);
      assert i == 2 * (i / 2) || i == 2 * (i / 2) + 1;
    }
  }

  // The digits of a displayed hash are read in either case, digit by digit.
  lemma EitherCase(hash: string, bytes: seq<byte>, rev: bool)
    requires BytesShow(hash, Displayed(bytes, rev))
    ensures HexText(hash) && FromHex(hash, rev) == bytes
  {
    hide CharToHex, PairShows, HexText;
    var shown, n := Displayed(bytes, rev), |bytes|;
    PairsText(hash, shown);
    forall i | 0 <= i < n ensures FromHex(hash, rev)[i] == bytes[i] {
      var k := if rev then n - 1 - i else i;
      PairValue(hash, k, shown[k]);
    }
  }

  lemma {:induction false} FirstIs(before: string, c: char, after: string)
    requires c !in before
    ensures IndexOf(before + [c] + after, c) == |before|
  {
    var text := before + [c] + after;
    if before != "" {
      assert before[0] in before && before[1..] == before[1..|before|];
      assert text[1..] == before[1..] + [c] + after;
      FirstIs(before[1..], c, after);
    }
  }

  lemma {:induction false} LastIs(before: string, c: char, after: string)
    requires c !in after
    ensures c in before + [c] + after && LastIndexOf(before + [c] + after, c) == |before|
    decreases |after|
  {
    var text := before + [c] + after;
    assert text[|before|] == c;
    if after != "" {
      var shorter := after[..|after| - 1];
      assert after[|after| - 1] in after;
      assert text[..|text| - 1] == before + [c] + shorter;
      LastIs(before, c, shorter);
    }
  }

  lemma DigitsHaveNo(bytes: seq<byte>, c: char)
    requires !HexDigit(c)
    ensures c !in HexString(bytes)
  {
    HexStringDigits(bytes);
  }

  // Printing in the GNU style and parsing with the matching flag gives the hash and the name back.
  lemma RoundTripGnu(canonical: seq<byte>, algo: AlgoSelected, filename: string, littleEndian: bool)
    requires |canonical| == HashLength(algo)
    ensures Parse(GnuLine(filename, canonical, littleEndian), littleEndian) == Some(Line(canonical, filename, 8 * |canonical|))
  {
    hide HexString, Reverse, FromHex, HexText, IndexOf;
    var hash := HexString(Displayed(canonical, littleEndian));
    var text := GnuLine(filename, canonical, littleEndian);
    DigitsHaveNo(Displayed(canonical, littleEndian), ' ');
    assert text == hash + [' '] + ([' '] + filename);
    FirstIs(hash, ' ', [' '] + filename);
    assert text[..|hash|] == hash && text[|hash| + 2..] == filename;
    FromHexOfHex(canonical, littleEndian);
  }

  lemma NameFacts(algo: AlgoSelected, littleEndian: bool)
    ensures ' ' !in Name(algo, littleEndian) && (Contains(Name(algo, littleEndian), "_LE") <==> littleEndian)
  {
    var name := Name(algo, littleEndian);
    if littleEndian {
      match algo {
        case XXH32 => assert name == "XXH32" + "_LE"; EndsWith("XXH32", "_LE");
        case XXH64 => assert name == "XXH64" + "_LE"; EndsWith("XXH64", "_LE");
        case XXH128 => assert name == "XXH128" + "_LE"; EndsWith("XXH128", "_LE");
      }
    } else {
      assert '_' !in name;
      NoUnderscore(name);
    }
  }

  lemma EndsWith(text: string, word: string)
    ensures Contains(text + word, word)
  {
    assert (text + word)[|text|..|text| + |word|] == word;
    assert OccursAt(text + word, word, |text|);
  }

  lemma NoUnderscore(text: string)
    requires '_' !in text
    ensures !Contains(text, "_LE")
  {
    forall i: nat | i + 3 <= |text| ensures !OccursAt(text, "_LE", i) {
      assert text[i] in text && text[i..i + 3][0] == text[i];
    }
  }

  // Where the parts of a BSD line are found, whatever the file is called.
  lemma BsdShape(name: string, filename: string, hash: string)
    requires ' ' !in name && ' ' !in hash
    ensures var text := name + " (" + filename + ") = " + hash;
      var p, q := |name|, |name| + |filename| + 5;
      && IndexOf(text, ' ') == p && ' ' in text && LastIndexOf(text, ' ') == q && q < |text| + 1
      && text[p + 1] == '(' && text[q - 1] == '=' && text[q - 2] == ' ' && text[q - 3] == ')'
      && text[..p] == name && text[p + 2..q - 3] == filename && text[q + 1..] == hash
  {
    hide IndexOf, LastIndexOf;
    var text := name + " (" + filename + ") = " + hash;
    var front, rest := name + " (" + filename + ") =", "(" + filename + ") = " + hash;
    assert text == name + [' '] + rest && text == front + [' '] + hash;
    FirstIs(name, ' ', rest);
    LastIs(front, ' ', hash);
  }

  lemma ParseBsd(name: string, filename: string, hash: string, rev: bool)
    requires ' ' !in name && ' ' !in hash
    ensures Parse(name + " (" + filename + ") = " + hash, rev) == ParseHash(hash, filename, Contains(name, "_LE"))
  {
    hide IndexOf, LastIndexOf, Contains, ParseHash;
    BsdShape(name, filename, hash);
  }

  // In the GNU form any mark but an opening parenthesis may stand behind the space.
  lemma ParseGnu(hash: string, mark: char, filename: string, rev: bool)
    requires ' ' !in hash && mark != '('
    ensures Parse(hash + " " + [mark] + filename, rev) == ParseHash(hash, filename, rev)
  {
    hide IndexOf, ParseHash;
    var text := hash + " " + [mark] + filename;
    assert text == hash + [' '] + ([mark] + filename);
    FirstIs(hash, ' ', [mark] + filename);
    assert text[..|hash|] == hash && text[|hash| + 2..] == filename;
  }

  // In the BSD style the algorithm's name carries the byte order: whatever the flag says,
  // parsing gives the hash and the name back.
  lemma RoundTripBsd(canonical: seq<byte>, algo: AlgoSelected, filename: string, littleEndian: bool, rev: bool)
    requires |canonical| == HashLength(algo)
    ensures Parse(BsdLine(filename, canonical, algo, littleEndian), rev) == Some(Line(canonical, filename, 8 * |canonical|))
  {
    hide HexString, Reverse, FromHex, HexText, Parse, Contains, Name, Displayed;
    NameFacts(algo, littleEndian);
    DigitsHaveNo(Displayed(canonical, littleEndian), ' ');
    ParseBsd(Name(algo, littleEndian), filename, HexString(Displayed(canonical, littleEndian)), rev);
    FromHexOfHex(canonical, littleEndian);
  }

  // ---------------------------------------------------------------- parsing: how it is done

  // Both characters of the j-th pair are digits.
  predicate PairOk(hash: string, j: nat) {
    2 * j + 1 < |hash| && CharToHex(hash[2 * j]) >= 0 && CharToHex(hash[2 * j + 1]) >= 0
  }

  lemma PairsAreText(hash: string)
    requires |hash| % 2 == 0
    ensures HexText(hash) <==> forall j :: 0 <= j < |hash| / 2 ==> PairOk(hash, j)
  {
    hide CharToHex;
    if forall j :: 0 <= j < |hash| / 2 ==> PairOk(hash, j) {
      forall i | 0 <= i < |hash| ensures CharToHex(hash[i]) >= 0 {
        assert PairOk(hash, i / 2);
      }
    }
  }

  lemma ShiftedOr(h0: int, h1: int)
    requires 0 <= h0 < 16 && 0 <= h1 < 16
    ensures Or(h0 * 16, h1) == h0 * 16 + h1
  {
    assert Pow2(4) == 16;
    OrIsSum(4, h0, h1);
  }

  // The pair that the k-th of n bytes is read from.
  function PairOf(k: nat, n: nat, rev: bool): (j: nat)
    requires k < n
    ensures j < n
  {
    if rev then n - 1 - k else k
  }

  // The bytes got so far are those of their pairs.
  predicate PrefixOk(text: string, got: seq<byte>, rev: bool) {
    && 2 * |got| <= |text| && |text| % 2 == 0
    && forall k :: 0 <= k < |got| ==> PairIs(text, PairOf(k, |text| / 2, rev), got[k])
  }

  predicate PairIs(text: string, j: nat, b: byte) {
    PairOk(text, j) && CharToHex(text[2 * j]) * 16 + CharToHex(text[2 * j + 1]) == b
  }

  lemma PrefixNext(text: string, got: seq<byte>, rev: bool, b: byte)
    requires PrefixOk(text, got, rev) && |got| < |text| / 2
    requires PairIs(text, PairOf(|got|, |text| / 2, rev), b)
    ensures PrefixOk(text, got + [b], rev)
  {
    hide PairIs, PairOf;
    var more := got + [b];
    assert 2 * |more| <= |text|;
    forall k | 0 <= k < |more| ensures PairIs(text, PairOf(k, |text| / 2, rev), more[k]) {
      if k < |got| { assert more[k] == got[k]; }
    }
  }

  lemma PrefixDone(text: string, got: seq<byte>, rev: bool)
    requires PrefixOk(text, got, rev) && |got| == |text| / 2
    ensures HexText(text) && got == FromHex(text, rev)
  {
    hide CharToHex, HexText;
    var n := |text| / 2;
    forall j | 0 <= j < n ensures PairOk(text, j) {
      var k := PairOf(j, n, rev);
      assert PairOf(k, n, rev) == j && PairIs(text, j, got[k]);
    }
    PairsAreText(text);
    assert forall k :: 0 <= k < n ==> PairIs(text, PairOf(k, n, rev), got[k]);
  }

  // canonicalFromString on dstSize bytes, read at an index of the line.
  method CanonicalFromString(dst: array<byte>, dstSize: nat, line: array<char>, hash: nat, rev: bool) returns (ok: bool)
    requires dstSize <= dst.Length && hash + 2 * dstSize <= line.Length
    modifies dst
    ensures ok <==> HexText(line[hash..hash + 2 * dstSize])
    ensures ok ==> dst[..dstSize] == FromHex(line[hash..hash + 2 * dstSize], rev)
  {
    hide CharToHex, PrefixOk, HexText, FromHex;
    ghost var text := line[hash..hash + 2 * dstSize];
    PairsAreText(text);
    PrefixStarts(text, rev);
    assert dst[..0] == [];
    var i := 0;
    while i < dstSize
      invariant i <= dstSize && PrefixOk(text, dst[..i], rev)
    {
      var j := if rev then dstSize - i - 1 else i;
      assert line[hash + j * 2] == text[2 * j] && line[hash + j * 2 + 1] == text[2 * j + 1];
      var h0 := CharToHex(line[hash + j * 2]);
      if h0 < 0 {
        assert !PairOk(text, j);
        return false;
      }
      var h1 := CharToHex(line[hash + j * 2 + 1]);
      if h1 < 0 {
        assert !PairOk(text, j);
        return false;
      }
      ShiftedOr(h0, h1);
      PrefixNext(text, dst[..i], rev, h0 * 16 + h1);
      dst[i] := Or(h0 * 16, h1);
      assert dst[..i + 1] == dst[..i] + [dst[i]];
      i := i + 1;
    }
    PrefixDone(text, dst[..i], rev);
    ok := true;
  }

  lemma PrefixStarts(text: string, rev: bool)
    requires |text| % 2 == 0
    ensures PrefixOk(text, [], rev)
  {
  }

  lemma TextEnds(s: seq<char>, from: nat)
    requires from <= |s| && '\0' in s[from..]
    ensures var n := from + |CString(s, from)|; n < |s| && s[n] == '\0'
  {
    var n := from + |CString(s, from)|;
    assert s[from..] == CString(s, from) + s[n..];
  }

  // strchr
  method Strchr(line: array<char>, c: char) returns (r: Option<nat>)
    requires '\0' in line[..] && c != '\0'
    ensures var text := CString(line[..], 0);
      if c in text then r == Some(IndexOf(text, c)) else r == None
  {
    hide IndexOf;
    ghost var text := CString(line[..], 0);
    assert line[..][0..] == line[..];
    TextEnds(line[..], 0);
    var i := 0;
    while line[i] != '\0'
      invariant i <= |text| && c !in text[..i]
      decreases |text| - i
    {
      assert line[i] == text[i];
      if line[i] == c {
        assert c in text;
        FirstIs(text[..i], c, text[i + 1..]);
        assert text == text[..i] + [c] + text[i + 1..];
        return Some(i);
      }
      assert text[..i + 1] == text[..i] + [text[i]];
      i := i + 1;
    }
    assert i == |text| && text[..i] == text;
    r := None;
  }

  lemma LastAt(text: string, c: char, v: nat)
    requires v < |text| && text[v] == c && forall k :: v < k < |text| ==> text[k] != c
    ensures c in text && LastIndexOf(text, c) == v
  {
    LastIs(text[..v], c, text[v + 1..]);
    assert text == text[..v] + [c] + text[v + 1..];
  }

  // strrchr
  method Strrchr(line: array<char>, c: char) returns (r: Option<nat>)
    requires '\0' in line[..] && c != '\0'
    ensures var text := CString(line[..], 0);
      if c in text then r == Some(LastIndexOf(text, c)) else r == None
  {
    hide LastIndexOf, IndexOf;
    ghost var text := CString(line[..], 0);
    assert line[..][0..] == line[..];
    TextEnds(line[..], 0);
    r := None;
    var i := 0;
    while line[i] != '\0'
      invariant i <= |text|
      invariant r.None? ==> forall k :: 0 <= k < i ==> text[k] != c
      invariant r.Some? ==> r.value < i && text[r.value] == c && forall k :: r.value < k < i ==> text[k] != c
      decreases |text| - i
    {
      assert line[i] == text[i];
      if line[i] == c {
        r := Some(i);
      }
      i := i + 1;
    }
    assert i == |text|;
    if r.Some? {
      LastAt(text, c, r.value);
    }
  }

  method Strlen(line: array<char>, from: nat) returns (n: nat)
    requires from <= line.Length && '\0' in line[from..]
    ensures n == |CString(line[..], from)|
  {
    ghost var text := CString(line[..], from);
    assert line[..][from..] == line[from..];
    TextEnds(line[..], from);
    n := 0;
    while line[from + n] != '\0'
      invariant n <= |text|
      decreases |text| - n
    {
      assert line[from + n] == text[n];
      n := n + 1;
    }
  }

  lemma Match(text: string, word: string, i: nat)
    requires i + |word| <= |text| && forall k :: 0 <= k < |word| ==> text[i + k] == word[k]
    ensures OccursAt(text, word, i)
  {
    assert text[i..i + |word|] == word;
  }

  lemma NoMatch(text: string, word: string, i: nat, j: nat)
    requires j < |word| && i + j <= |text| && (i + j < |text| ==> text[i + j] != word[j])
    ensures !OccursAt(text, word, i)
  {
    if i + |word| <= |text| {
      assert text[i..i + |word|][j] == text[i + j];
    }
  }

  // The inner loop of strstr: is the word at the index i of the text?
  method MatchesAt(line: array<char>, i: nat, word: string) returns (found: bool)
    requires '\0' in line[..] && '\0' !in word && i <= |CString(line[..], 0)|
    ensures found == OccursAt(CString(line[..], 0), word, i)
  {
    hide CString;
    ghost var text := CString(line[..], 0);
    TextAt(line[..]);
    var j := 0;
    while j < |word| && line[i + j] == word[j]
      invariant j <= |word| && i + j <= |text| && forall k :: 0 <= k < j ==> text[i + k] == word[k]
    {
      assert word[j] in word;
      j := j + 1;
    }
    if j == |word| {
      Match(text, word, i);
    } else {
      NoMatch(text, word, i, j);
    }
    found := j == |word|;
  }

  // strstr, for a word without NUL: is it there?
  method Strstr(line: array<char>, word: string) returns (found: bool)
    requires '\0' in line[..] && '\0' !in word && word != ""
    ensures found == Contains(CString(line[..], 0), word)
  {
    hide CString;
    ghost var text := CString(line[..], 0);
    TextAt(line[..]);
    var i := 0;
    while line[i] != '\0'
      invariant i <= |text| && forall k :: 0 <= k < i ==> !OccursAt(text, word, k)
      decreases |text| - i
    {
      var here := MatchesAt(line, i, word);
      if here {
        return true;
      }
      i := i + 1;
    }
    found := false;
  }

  // The struct that parseLine fills. The file name is a place in the line.
  class ParsedLine {
    const canonical: array<byte>
    var filename: Option<nat>
    var xxhBits: nat

    constructor ()
      ensures canonical.Length == 16 && fresh(canonical)
    {
      canonical := new byte[16];
      filename, xxhBits := None, 0;
    }
  }

  // A stretch of the text that a NUL now ends.
  lemma PieceIs(s: seq<char>, now: seq<char>, from: nat, end: nat)
    requires |now| == |s| && '\0' in s && from <= end <= |CString(s, 0)|
    requires end < |now| ==> now[end] == '\0'
    requires forall i :: from <= i < end ==> now[i] == s[i]
    ensures end < |now| && CString(now, from) == CString(s, 0)[from..end] == now[from..end] && '\0' in now[from..]
  {
    hide CString;
    var text := CString(s, 0);
    TextAt(s);
    assert forall i :: from <= i < end ==> now[i] == text[i] != '\0';
    assert now[from..end] == text[from..end];
    CStringIs(now, from, end);
    assert now[from..][end - from] == '\0';
  }

  // The line after parseLine has cut it at the two places of the BSD style.
  function Cut(s: seq<char>, p: nat, q: nat): (r: seq<char>)
    requires p + 5 <= q < |s|
    ensures |r| == |s|
  {
    s[q - 3 := '\0'][p := '\0']
  }

  lemma Carved(s: seq<char>, p: nat, q: nat)
    requires '\0' in s && p + 5 <= q < |CString(s, 0)|
    ensures var text, now := CString(s, 0), Cut(s, p, q);
      && |text| < |s| && '\0' in now && '\0' in now[q + 1..]
      && CString(now, 0) == text[..p]
      && CString(now, p + 2) == text[p + 2..q - 3]
      && CString(now, q + 1) == text[q + 1..]
      && now[q + 1..q + 1 + |CString(now, q + 1)|] == text[q + 1..]
  {
    hide CString;
    var now := Cut(s, p, q);
    var n := |CString(s, 0)|;
    TextAt(s);
    PieceIs(s, now, 0, p);
    assert now[0..] == now;
    PieceIs(s, now, p + 2, q - 3);
    PieceIs(s, now, q + 1, n);
  }

  method CutLine(line: array<char>, p: nat, q: nat)
    requires p + 5 <= q < line.Length
    modifies line
    ensures line[..] == Cut(old(line[..]), p, q)
  {
    line[q - 3] := '\0';
    line[p] := '\0';
  }

  // The last part of parseLine: the hash of hashLen characters, then the file name.
  method FillHash(parsed: ParsedLine, line: array<char>, hash: nat, hashLen: nat, name: nat, rev: bool) returns (ok: bool)
    requires hash + hashLen <= line.Length && name <= line.Length && parsed.canonical.Length == 16
    requires parsed.filename == None && parsed.xxhBits == 0
    modifies parsed, parsed.canonical
    ensures ok <==> ParseHash(line[hash..hash + hashLen], CString(line[..], name), rev).Some?
    ensures ok ==> Filled(parsed, line, ParseHash(line[hash..hash + hashLen], CString(line[..], name), rev).value)
    ensures !ok ==> parsed.filename == None && parsed.xxhBits == 0
  {
    hide HexText, FromHex, CString;
    if hashLen != 8 && hashLen != 16 && hashLen != 32 {
      return false;
    }
    assert 2 * (hashLen / 2) == hashLen;
    ok := CanonicalFromString(parsed.canonical, hashLen / 2, line, hash, rev);
    if !ok {
      return;
    }
    parsed.xxhBits := 4 * hashLen;
    parsed.filename := Some(name);
  }

  ghost predicate Filled(parsed: ParsedLine, line: array<char>, l: Line)
    reads parsed, parsed.canonical, line
  {
    && parsed.filename.Some? && parsed.filename.value <= line.Length
    && CString(line[..], parsed.filename.value) == l.filename
    && parsed.xxhBits == l.xxhBits && parsed.xxhBits / 8 <= parsed.canonical.Length
    && parsed.canonical[..parsed.xxhBits / 8] == l.canonical
  }

  // parseLine: the line is cut in place, and the struct is filled when the line is well formed.
  method ParseLine(parsed: ParsedLine, line: array<char>, rev: bool) returns (ok: bool)
    requires '\0' in line[..] && parsed.canonical.Length == 16
    modifies parsed, parsed.canonical, line
    ensures ok <==> Parse(old(CString(line[..], 0)), rev).Some?
    ensures ok ==> Filled(parsed, line, Parse(old(CString(line[..], 0)), rev).value)
    ensures !ok ==> parsed.filename == None && parsed.xxhBits == 0
  {
    hide Filled, ParseHash, CString, BsdParts, IndexOf, LastIndexOf;
    ghost var s, text := line[..], CString(line[..], 0);
    TextAt(s);
    var firstSpace := Strchr(line, ' ');
    parsed.filename := None;
    parsed.xxhBits := 0;
    if firstSpace == None {
      return false;
    }
    var p := firstSpace.value;
    if line[p + 1] == '\0' {
      return false;
    }
    if line[p + 1] == '(' {
      ok := ParseBsdLine(parsed, line, p);
    } else {
      assert text[..p] == line[0..p];
      NameTail(s, p + 2);
      ok := FillHash(parsed, line, 0, p, p + 2, rev);
    }
  }

  // parseLine from a first space that an opening parenthesis follows.
  method ParseBsdLine(parsed: ParsedLine, line: array<char>, p: nat) returns (ok: bool)
    requires '\0' in line[..] && parsed.canonical.Length == 16 && parsed.filename == None && parsed.xxhBits == 0
    requires var text := CString(line[..], 0); p + 1 < |text| && text[p] == ' ' && p == IndexOf(text, ' ') && text[p + 1] == '('
    modifies parsed, parsed.canonical, line
    ensures ok <==> Parse(old(CString(line[..], 0)), false).Some?
    ensures ok ==> Filled(parsed, line, Parse(old(CString(line[..], 0)), false).value)
    ensures !ok ==> parsed.filename == None && parsed.xxhBits == 0
  {
    hide Filled, BsdParts, CString, IndexOf, LastIndexOf;
    ghost var s, text := line[..], CString(line[..], 0);
    TextAt(s);
    var lastSpace := Strrchr(line, ' ');
    assert text[p] in text;
    var q := lastSpace.value;
    if q - p < 5 {
      return false;
    }
    if line[q - 1] != '=' || line[q - 2] != ' ' || line[q - 3] != ')' {
      return false;
    }
    ok := CutAndFill(parsed, line, p, q);
  }

  // The line is cut before the parenthesis and after the name, and the rest is the hash.
  method CutAndFill(parsed: ParsedLine, line: array<char>, p: nat, q: nat) returns (ok: bool)
    requires '\0' in line[..] && parsed.canonical.Length == 16 && parsed.filename == None && parsed.xxhBits == 0
    requires p + 5 <= q < |CString(line[..], 0)|
    modifies parsed, parsed.canonical, line
    ensures ok <==> BsdParts(old(CString(line[..], 0)), p, q).Some?
    ensures ok ==> Filled(parsed, line, BsdParts(old(CString(line[..], 0)), p, q).value)
    ensures !ok ==> parsed.filename == None && parsed.xxhBits == 0
  {
    hide Filled, ParseHash, CString, Contains, Cut;
    ghost var text := CString(line[..], 0);
    Carved(line[..], p, q);
    CutLine(line, p, q);
    assert line[..][q + 1..] == line[q + 1..];
    var isLE := Strstr(line, "_LE");
    var hashLen := Strlen(line, q + 1);
    assert line[q + 1..q + 1 + hashLen] == line[..][q + 1..q + 1 + hashLen];
    ok := FillHash(parsed, line, q + 1, hashLen, p + 2, isLE);
  }

  // What the BSD style yields when its spaces are at p and q.
  function BsdParts(text: string, p: nat, q: nat): Option<Line>
    requires p + 5 <= q < |text|
  {
    ParseHash(text[q + 1..], text[p + 2..q - 3], Contains(text[..p], "_LE"))
  }

  // The buffer holds the text and a NUL after it.
  lemma TextAt(s: seq<char>)
    requires '\0' in s
    ensures var text := CString(s, 0);
      |text| < |s| && s[|text|] == '\0' && '\0' !in text && forall i :: 0 <= i < |text| ==> s[i] == text[i] && text[i] != '\0'
  {
    assert s[0..] == s;
    TextEnds(s, 0);
    assert forall i :: 0 <= i < |CString(s, 0)| ==> CString(s, 0)[i] in CString(s, 0);
  }

  lemma NameTail(s: seq<char>, from: nat)
    requires '\0' in s && from <= |CString(s, 0)|
    ensures CString(s, from) == CString(s, 0)[from..]
  {
    var text := CString(s, 0);
    assert s[0..] == s;
    TextEnds(s, 0);
    assert s[from..|text|] == text[from..];
    CStringIs(s, from, |text|);
  }

  // ---------------------------------------------------------------- what is accepted

  function LowerDigit(c: char): char {
    if 'A' <= c <= 'F' then ((c as int) - ('A' as int) + ('a' as int)) as char else c
  }

  function Lower(text: string): (r: string)
    ensures |r| == |text| && forall i :: 0 <= i < |r| ==> r[i] == LowerDigit(text[i])
  {
    if text == "" then "" else [LowerDigit(text[0])] + Lower(text[1..])
  }

  lemma LowerIsDigit(c: char)
    requires CharToHex(c) >= 0
    ensures LowerDigit(c) == DIGITS[CharToHex(c)]
  {
  }

  lemma HexOfByte(h0: nat, h1: nat)
    requires h0 < 16 && h1 < 16
    ensures Hex(h0 * 16 + h1) == [DIGITS[h0], DIGITS[h1]]
  {
    assert (h0 * 16 + h1) / 16 == h0 && (h0 * 16 + h1) % 16 == h1;
  }

  lemma HexOfPair(hash: string, j: nat)
    requires HexText(hash) && 2 * j + 1 < |hash|
    ensures Hex(ByteAt(hash, j)) == [LowerDigit(hash[2 * j]), LowerDigit(hash[2 * j + 1])]
  {
    hide LowerDigit, CharToHex, Hex;
    LowerIsDigit(hash[2 * j]);
    LowerIsDigit(hash[2 * j + 1]);
    HexOfByte(CharToHex(hash[2 * j]), CharToHex(hash[2 * j + 1]));
  }

  // Displaying what was parsed gives the digits back, in lower case.
  lemma HexBack(hash: string, rev: bool)
    requires HexText(hash) && |hash| % 2 == 0
    ensures HexString(Displayed(FromHex(hash, rev), rev)) == Lower(hash)
  {
    hide HexText, HexString, Reverse, ByteAt, Hex, LowerDigit, Lower;
    var shown := Displayed(FromHex(hash, rev), rev);
    var n := |hash| / 2;
    forall i | 0 <= i < |hash| ensures HexString(shown)[i] == Lower(hash)[i] {
      var j := i / 2;
      assert i == 2 * j || i == 2 * j + 1;
      HexStringAt(shown, j);
      ShownAt(hash, rev, j);
      HexOfPair(hash, j);
    }
  }

  lemma ShownAt(hash: string, rev: bool, j: nat)
    requires HexText(hash) && |hash| % 2 == 0 && j < |hash| / 2
    ensures Displayed(FromHex(hash, rev), rev)[j] == ByteAt(hash, j)
  {
    hide HexText, ByteAt, Reverse;
    var bytes := FromHex(hash, rev);
    if rev {
      assert Reverse(bytes)[j] == bytes[|bytes| - 1 - j];
    }
  }

  // The digits of a hash of one of the three widths.
  predicate ShownHash(hash: string) {
    (|hash| == 8 || |hash| == 16 || |hash| == 32) && HexText(hash)
  }

  // The line form that has no algorithm name; the mark is what stands before the file name.
  ghost predicate GnuForm(text: string, hash: string, mark: char, filename: string) {
    ShownHash(hash) && mark != '(' && text == hash + " " + [mark] + filename
  }

  ghost predicate BsdForm(text: string, head: string, filename: string, hash: string) {
    ShownHash(hash) && ' ' !in head && text == head + " (" + filename + ") = " + hash
  }

  lemma ShownHasNoSpace(hash: string)
    requires HexText(hash)
    ensures ' ' !in hash
  {
  }

  // A line of the GNU form is accepted whatever its mark, and read in the flag's byte order.
  lemma GnuAccepted(text: string, hash: string, mark: char, filename: string, rev: bool)
    requires GnuForm(text, hash, mark, filename)
    ensures Parse(text, rev) == Some(Line(FromHex(hash, rev), filename, 4 * |hash|))
  {
    hide Parse, HexText, FromHex;
    ShownHasNoSpace(hash);
    ParseGnu(hash, mark, filename, rev);
  }

  lemma BsdAccepted(text: string, head: string, filename: string, hash: string, rev: bool)
    requires BsdForm(text, head, filename, hash)
    ensures Parse(text, rev) == Some(Line(FromHex(hash, Contains(head, "_LE")), filename, 4 * |hash|))
  {
    hide Parse, HexText, FromHex, Contains;
    ShownHasNoSpace(hash);
    ParseBsd(head, filename, hash, rev);
  }

  // Exactly the lines of the two forms are accepted.
  lemma AcceptedExactly(text: string, rev: bool)
    ensures Parse(text, rev).Some? <==>
      (exists hash, mark, filename :: GnuForm(text, hash, mark, filename)) ||
      (exists head, filename, hash :: BsdForm(text, head, filename, hash))
  {
    hide Parse, ShownHash, FromHex, Contains, HexString, Displayed, Lower;
    if hash, mark, filename :| GnuForm(text, hash, mark, filename) {
      GnuAccepted(text, hash, mark, filename, rev);
    }
    if head, filename, hash :| BsdForm(text, head, filename, hash) {
      BsdAccepted(text, head, filename, hash, rev);
    }
    if Parse(text, rev).Some? {
      var filename := Parse(text, rev).value.filename;
      var bsd, head, mark, hash := AcceptedForm(text, rev);
      if bsd {
        assert BsdForm(text, head, filename, hash);
      } else {
        assert GnuForm(text, hash, mark, filename);
      }
    }
  }

  // Every accepted line has one of the two forms, and names the hash and the file it was
  // parsed to: up to the case of its digits it is what the printers print. In the GNU form
  // any mark but an opening parenthesis may stand between the space and the name.
  lemma AcceptedForm(text: string, rev: bool) returns (bsd: bool, head: string, mark: char, hash: string)
    requires Parse(text, rev).Some?
    ensures var l, reversed := Parse(text, rev).value, if bsd then Contains(head, "_LE") else rev;
      && ShownHash(hash) && l == Line(FromHex(hash, reversed), l.filename, 4 * |hash|)
      && Lower(hash) == HexString(Displayed(l.canonical, reversed))
      && if bsd then ' ' !in head && ' ' !in hash && text == head + " (" + l.filename + ") = " + hash
         else ' ' !in hash && mark != '(' && text == hash + " " + [mark] + l.filename
  {
    hide Parse, HexText, HexString, FromHex, Displayed, Lower, Contains, IndexOf, LastIndexOf;
    var p := IndexOf(text, ' ');
    StyleOf(text, rev);
    bsd, head, mark := text[p + 1] == '(', text[..p], text[p + 1];
    if bsd {
      hash := AcceptedBsd(text, rev);
    } else {
      hash := text[..p];
      AcceptedGnu(text, rev);
    }
  }

  lemma StyleOf(text: string, rev: bool)
    requires Parse(text, rev).Some?
    ensures IndexOf(text, ' ') + 1 < |text|
  {
  }

  lemma AcceptedGnu(text: string, rev: bool)
    requires Parse(text, rev).Some?
    requires IndexOf(text, ' ') + 1 < |text| && text[IndexOf(text, ' ') + 1] != '('
    ensures var l, p, hash := Parse(text, rev).value, IndexOf(text, ' '), text[..IndexOf(text, ' ')];
      && ShownHash(hash) && l == Line(FromHex(hash, rev), l.filename, 4 * |hash|)
      && Lower(hash) == HexString(Displayed(l.canonical, rev))
      && ' ' !in hash && text == hash + " " + [text[p + 1]] + l.filename
  {
    hide HexText, HexString, FromHex, Displayed, Lower, Contains, IndexOf, LastIndexOf, BsdParts;
    var p := IndexOf(text, ' ');
    assert text == text[..p] + " " + [text[p + 1]] + text[p + 2..];
    HexBack(text[..p], rev);
  }

  lemma AcceptedBsd(text: string, rev: bool) returns (hash: string)
    requires Parse(text, rev).Some?
    requires IndexOf(text, ' ') + 1 < |text| && text[IndexOf(text, ' ') + 1] == '('
    ensures var l, head := Parse(text, rev).value, text[..IndexOf(text, ' ')];
      && ShownHash(hash) && l == Line(FromHex(hash, Contains(head, "_LE")), l.filename, 4 * |hash|)
      && Lower(hash) == HexString(Displayed(l.canonical, Contains(head, "_LE")))
      && ' ' !in head && ' ' !in hash && text == head + " (" + l.filename + ") = " + hash
  {
    hide HexText, HexString, FromHex, Displayed, Lower, Contains, IndexOf, LastIndexOf;
    var p, q := IndexOf(text, ' '), LastIndexOf(text, ' ');
    hash := text[q + 1..];
    SpansBsd(text, p, q);
    HexBack(hash, Contains(text[..p], "_LE"));
  }

  lemma SpansBsd(text: string, p: nat, q: nat)
    requires p + 5 <= q < |text| && text[p] == ' ' && text[p + 1] == '('
    requires text[q] == ' ' && text[q - 1] == '=' && text[q - 2] == ' ' && text[q - 3] == ')'
    ensures text == text[..p] + " (" + text[p + 2..q - 3] + ") = " + text[q + 1..]
  {
    assert text[p..p + 2] == " (" && text[q - 3..q + 1] == ") = ";
  }

  // ---------------------------------------------------------------- canonical forms

  // memcpy of an n-byte integer out of, and into, a register of either byte order.
  function Native(v: nat, n: nat, littleCpu: bool): (r: seq<byte>)
    ensures |r| == n
  {
    if littleCpu then LEBytes(v, n) else Reverse(LEBytes(v, n))
  }

  function FromNative(s: seq<byte>, littleCpu: bool): nat {
    LE(if littleCpu then s else Reverse(s))
  }

  function Canonical32(hash: u32, littleCpu: bool): seq<byte> {
    Native(if littleCpu then Swap32(hash) else hash, 4, littleCpu)
  }

  // XXH_readBE32
  function HashFromCanonical32(c: seq<byte>, littleCpu: bool): u32
    requires |c| == 4
  {
    Pow2Values();
    var v := FromNative(c, littleCpu);
    if littleCpu then Swap32(v) else v
  }

  function Canonical64(hash: u64, littleCpu: bool): (r: seq<byte>)
    ensures |r| == 8
  {
    Native(if littleCpu then Swap64(hash) else hash, 8, littleCpu)
  }

  // XXH_readBE64
  function HashFromCanonical64(c: seq<byte>, littleCpu: bool): u64
    requires |c| == 8
  {
    Pow2Values();
    var v := FromNative(c, littleCpu);
    if littleCpu then Swap64(v) else v
  }

  function Canonical128(low64: u64, high64: u64, littleCpu: bool): (r: seq<byte>)
    ensures |r| == 16
  {
    Canonical64(high64, littleCpu) + Canonical64(low64, littleCpu)
  }

  // The pair is low64, high64.
  function HashFromCanonical128(c: seq<byte>, littleCpu: bool): (u64, u64)
    requires |c| == 16
  {
    (HashFromCanonical64(c[8..], littleCpu), HashFromCanonical64(c[..8], littleCpu))
  }

  lemma ReverseTwice(s: seq<byte>)
    ensures Reverse(Reverse(s)) == s
  {
  }

  // The canonical bytes are big endian on every machine, and give the hash back on any other.
  lemma Canonical32Portable(hash: u32, here: bool, there: bool)
    ensures Canonical32(hash, here) == Reverse(LEBytes(hash, 4))
    ensures |Canonical32(hash, here)| == 4 && HashFromCanonical32(Canonical32(hash, here), there) == hash
  {
    Pow2Values();
    var c := Reverse(LEBytes(hash, 4));
    StoreLoad(c);
    LoadStore(hash, 4);
    ReverseTwice(LEBytes(hash, 4));
  }

  lemma Canonical64Portable(hash: u64, here: bool, there: bool)
    ensures Canonical64(hash, here) == Reverse(LEBytes(hash, 8))
    ensures HashFromCanonical64(Canonical64(hash, here), there) == hash
  {
    Pow2Values();
    var c := Reverse(LEBytes(hash, 8));
    StoreLoad(c);
    LoadStore(hash, 8);
    ReverseTwice(LEBytes(hash, 8));
  }

  // The bytes of a 128-bit number are those of its low half and then those of its high half.
  lemma WideBytes(low64: u64, high64: u64)
    ensures LEBytes(high64 * W64 + low64, 16) == LEBytes(low64, 8) + LEBytes(high64, 8)
    ensures Reverse(LEBytes(low64, 8) + LEBytes(high64, 8)) == Reverse(LEBytes(high64, 8)) + Reverse(LEBytes(low64, 8))
  {
    hide LEBytes, LE, Pow2, Reverse;
    var low, high := LEBytes(low64, 8), LEBytes(high64, 8);
    Pow2Values();
    LoadStore(low64, 8);
    LoadStore(high64, 8);
    LESplit(low + high, 8);
    assert (low + high)[8..] == high && (low + high)[..8] == low;
    StoreLoad(low + high);
  }

  // The canonical form is the 128-bit number itself, big endian, its high half first.
  lemma Canonical128Portable(low64: u64, high64: u64, here: bool, there: bool)
    ensures Canonical128(low64, high64, here) == Reverse(LEBytes(high64 * W64 + low64, 16))
    ensures HashFromCanonical128(Canonical128(low64, high64, here), there) == (low64, high64)
  {
    hide Canonical64, HashFromCanonical64, LEBytes, Reverse;
    WideBytes(low64, high64);
    Canonical64Portable(low64, here, there);
    Canonical64Portable(high64, here, there);
    var c := Canonical128(low64, high64, here);
    assert c[8..] == Canonical64(low64, here) && c[..8] == Canonical64(high64, here);
  }
}
