/** The text form of a gid and the address message two test programs exchange. */
module Wire {
  import opened Types

  type Word = x: int | 0 <= x < TWO_32

  // ----- hexadecimal text -----

  function Hex(d: nat): char
    requires d < 16
  {
    if d < 10 then '0' + d as char else 'a' + (d - 10) as char
  }

  predicate IsHex(c: char) { '0' <= c <= '9' || 'a' <= c <= 'f' || 'A' <= c <= 'F' }

  predicate IsLowerHex(c: char) { '0' <= c <= '9' || 'a' <= c <= 'f' }

  function HexVal(c: char): (d: nat)
    requires IsHex(c)
    ensures d < 16
  {
    if c <= '9' then (c - '0') as nat
    else if c <= 'F' then (c - 'A') as nat + 10
    else (c - 'a') as nat + 10
  }

  /** The sixteen digits. */
  lemma HexTable(d: nat)
    requires d < 16
    ensures Hex(d) == "0123456789abcdef"[d]
  {
  }

  lemma HexOfVal(c: char)
    requires IsLowerHex(c)
    ensures Hex(HexVal(c)) == c
  {
  }

  lemma ValOfHex(d: nat)
    requires d < 16
    ensures IsLowerHex(Hex(d)) && IsHex(Hex(d)) && HexVal(Hex(d)) == d
  {
  }

  predicate AllHex(s: string) {
    forall i :: 0 <= i < |s| ==> IsHex(s[i])
  }

  function HexDigits(n: nat): (s: string)
    ensures s != [] && AllHex(s)
  {
    if n < 16 then [Hex(n)] else HexDigits(n / 16) + [Hex(n % 16)]
  }

  function Zeros(n: nat): (s: string)
    ensures |s| == n && forall i :: 0 <= i < n ==> s[i] == '0'
  {
    seq(n, _ => '0')
  }

  /** `%0<w>x` */
  function Padded(n: nat, w: nat): (s: string)
    ensures AllHex(s) && s != []
  {
    var s := HexDigits(n);
    if |s| < w then Zeros(w - |s|) + s else s
  }

  /** The value of a run of hex digits. */
  function HexValue(s: string): nat
    requires AllHex(s)
  {
    if s == [] then 0 else HexValue(s[..|s| - 1]) * 16 + HexVal(s[|s| - 1])
  }

  lemma {:induction false} ValueOfDigits(n: nat)
    ensures HexValue(HexDigits(n)) == n
  {
    var s := HexDigits(n);
    if n < 16 {
      ValOfHex(n);
      assert s[..0] == [];
    } else {
      ValueOfDigits(n / 16);
      ValOfHex(n % 16);
      assert s[..|s| - 1] == HexDigits(n / 16);
    }
  }

  lemma {:induction false} ZerosAddNothing(k: nat, s: string)
    requires AllHex(s)
    ensures AllHex(Zeros(k) + s) && HexValue(Zeros(k) + s) == HexValue(s)
  {
    var t := Zeros(k) + s;
    if s != [] {
      ZerosAddNothing(k, s[..|s| - 1]);
      assert t[..|t| - 1] == Zeros(k) + s[..|s| - 1];
    } else if k > 0 {
      ZerosAddNothing(k - 1, s);
      assert t[..|t| - 1] == Zeros(k - 1) + s;
    }
  }

  lemma ValueOfPadded(n: nat, w: nat)
    ensures HexValue(Padded(n, w)) == n
  {
    ValueOfDigits(n);
    if |HexDigits(n)| < w { ZerosAddNothing(w - |HexDigits(n)|, HexDigits(n)); }
  }

  function Pow16(k: nat): (p: nat)
    ensures p > 0
  {
    if k == 0 then 1 else 16 * Pow16(k - 1)
  }

  lemma {:induction false} DigitsFit(n: nat, k: nat)
    requires k > 0
    ensures |HexDigits(n)| <= k <==> n < Pow16(k)
  {
    assert Pow16(k) == 16 * Pow16(k - 1);
    if n >= 16 && k > 1 { DigitsFit(n / 16, k - 1); }
  }

  /** A field has its minimal width exactly when the value fits that width. */
  lemma PaddedWidth(n: nat, w: nat)
    requires w > 0
    ensures |Padded(n, w)| >= w && (|Padded(n, w)| == w <==> n < Pow16(w))
  {
    DigitsFit(n, w);
  }

  // ----- scanf -----

  predicate IsSpace(c: char) { c == ' ' || '\t' <= c <= '\r' }

  function SkipSpaces(s: string): (r: string)
    ensures |r| <= |s|
  {
    if s != [] && IsSpace(s[0]) then SkipSpaces(s[1..]) else s
  }

  /** Length of the longest prefix of hex digits. */
  function HexRun(s: string): (k: nat)
    ensures k <= |s| && AllHex(s[..k]) && (k < |s| ==> !IsHex(s[k]))
  {
    if s != [] && IsHex(s[0]) then
      var k := HexRun(s[1..]);
      assert s[..k + 1] == [s[0]] + s[1..][..k];
      k + 1
    else 0
  }

  predicate HasPrefix0x(s: string) {
    |s| >= 2 && s[0] == '0' && (s[1] == 'x' || s[1] == 'X')
  }

  /** Converted through a 64-bit number that saturates, then cut to 32 bits. */
  function Converted(v: nat, negative: bool): Word {
    if v >= TWO_64 then TWO_32 - 1 else if negative then (TWO_64 - v) % TWO_32 else v % TWO_32
  }

  /** `%x`: spaces, a sign, `0x` and the longest run of hex digits. Gives the number and the rest. */
  function ScanHex(s: string): Option<(Word, string)> {
    var t := SkipSpaces(s);
    var signed := t != [] && (t[0] == '-' || t[0] == '+');
    var u := if signed then t[1..] else t;
    var v := if HasPrefix0x(u) then u[2..] else u;
    var k := HexRun(v);
    if k == 0 then None else Some((Converted(HexValue(v[..k]), signed && t[0] == '-'), v[k..]))
  }

  lemma {:induction false} HexRunStops(s: string, rest: string)
    requires AllHex(s) && (rest == [] || !IsHex(rest[0]))
    ensures HexRun(s + rest) == |s|
  {
    if s != [] {
      HexRunStops(s[1..], rest);
      assert (s + rest)[1..] == s[1..] + rest;
    } else {
      assert s + rest == rest;
    }
  }

  lemma PlainStart(s: string, rest: string)
    requires AllHex(s) && s != [] && (rest == [] || rest[0] == ':')
    ensures var t := s + rest; t[0] != '-' && t[0] != '+' && SkipSpaces(t) == t && !HasPrefix0x(t)
  {
    var t := s + rest;
    assert t[0] == s[0] && IsHex(t[0]);
    if |t| >= 2 { assert t[1] == if |s| >= 2 then s[1] else rest[0]; }
  }

  lemma ScanPlain(t: string)
    requires t != [] && t[0] != '-' && t[0] != '+' && SkipSpaces(t) == t && !HasPrefix0x(t) && HexRun(t) > 0
    ensures ScanHex(t) == Some((Converted(HexValue(t[..HexRun(t)]), false), t[HexRun(t)..]))
  {
  }

  lemma ConvertedSmall(v: Word)
    ensures Converted(v, false) == v
  {
  }

  /** What `%x` makes of numbers that need more than 32 bits, and of negative ones. */
  lemma ConvertedLow(v: nat)
    ensures v < TWO_64 ==> Converted(v, false) == v % TWO_32 && (v + Converted(v, true)) % TWO_32 == 0
    ensures v >= TWO_64 ==> Converted(v, false) == 0xFFFF_FFFF && Converted(v, true) == 0xFFFF_FFFF
  {
    if v < TWO_64 {
      var m := TWO_64 - v;
      assert m == (m / TWO_32) * TWO_32 + m % TWO_32;
      assert v + m % TWO_32 == (TWO_32 - m / TWO_32) * TWO_32;
      MultipleOf32(TWO_32 - m / TWO_32);
    }
  }

  lemma MultipleOf32(k: int)
    ensures (k * TWO_32) % TWO_32 == 0
  {
  }

  lemma RunAt(s: string, rest: string)
    requires AllHex(s) && s != [] && (rest == [] || rest[0] == ':')
    ensures var t := s + rest;
      HexRun(t) == |s| && t[..|s|] == s && t[|s|..] == rest && !HasPrefix0x(t) && t[0] != '-' && t[0] != '+'
  {
    HexRunStops(s, rest);
    PlainStart(s, rest);
  }

  /** `%x` takes a sign, then digits up to the first other character. */
  lemma SignedScans(sign: char, s: string, rest: string)
    requires (sign == '-' || sign == '+') && AllHex(s) && s != [] && (rest == [] || rest[0] == ':')
    ensures ScanHex([sign] + (s + rest)) == Some((Converted(HexValue(s), sign == '-'), rest))
  {
    RunAt(s, rest);
    assert ([sign] + (s + rest))[1..] == s + rest;
  }

  /** It takes `0x` before the digits. */
  lemma PrefixedScans(s: string, rest: string)
    requires AllHex(s) && s != [] && (rest == [] || rest[0] == ':')
    ensures ScanHex("0x" + (s + rest)) == Some((Converted(HexValue(s), false), rest))
  {
    RunAt(s, rest);
    assert ("0x" + (s + rest))[2..] == s + rest;
  }

  /** White space before a number is skipped. */
  lemma SpaceSkipped(c: char, s: string)
    requires c == ' ' || '\t' <= c <= '\r'
    ensures SkipSpaces([c] + s) == SkipSpaces(s) && ScanHex([c] + s) == ScanHex(s)
  {
    assert ([c] + s)[1..] == s;
  }

  /** Text that starts with none of these is no number, and the variable keeps what it held. */
  lemma NoNumber(s: string, previous: Word32)
    requires s == [] || !(IsSpace(s[0]) || IsHex(s[0]) || s[0] == '-' || s[0] == '+')
    ensures ScanHex(s) == None && ChunkWord(s, previous) == previous
  {
  }

  /** A printed number followed by something else than a hex digit or `x` scans back. */
  lemma ScanPrinted(s: string, rest: string)
    requires AllHex(s) && s != [] && HexValue(s) < TWO_32
    requires rest == [] || rest[0] == ':'
    ensures ScanHex(s + rest) == Some((HexValue(s), rest))
  {
    var t := s + rest;
    HexRunStops(s, rest);
    PlainStart(s, rest);
    ScanPlain(t);
    assert t[..|s|] == s && t[|s|..] == rest;
    ConvertedSmall(HexValue(s));
  }

  // ----- words and bytes -----

  /** A `uint32_t` by the bytes that hold it in memory; hosts are little-endian. */
  datatype Word32 = Word32(b0: byte, b1: byte, b2: byte, b3: byte)

  function Value(w: Word32): Word {
    w.b0 as int + 256 * w.b1 as int + 65536 * w.b2 as int + 16777216 * w.b3 as int
  }

  function OfValue(n: Word): Word32 {
    var q1 := n / 256;
    var q2 := q1 / 256;
    Word32((n % 256) as byte, (q1 % 256) as byte, (q2 % 256) as byte, (q2 / 256) as byte)
  }

  lemma DivByte(b: byte, q: nat)
    ensures (b as int + 256 * q) / 256 == q && (b as int + 256 * q) % 256 == b as int
  {
  }

  lemma OfValueOf(w: Word32)
    ensures OfValue(Value(w)) == w
  {
    var q2 := w.b2 as int + 256 * w.b3 as int;
    var q1 := w.b1 as int + 256 * q2;
    assert Value(w) == w.b0 as int + 256 * q1;
    DivByte(w.b0, q1);
    DivByte(w.b1, q2);
    DivByte(w.b2, w.b3 as int);
  }

  /** `htobe32` and `be32toh` */
  function Swapped(w: Word32): Word32 {
    Word32(w.b3, w.b2, w.b1, w.b0)
  }

  function WordBytes(w: Word32): seq<byte> { [w.b0, w.b1, w.b2, w.b3] }

  function WordAt(bytes: seq<byte>, i: nat): Word32
    requires i + 4 <= |bytes|
  {
    Word32(bytes[i], bytes[i + 1], bytes[i + 2], bytes[i + 3])
  }

  // ----- the text form of a gid -----

  function ByteText(b: byte): string {
    [Hex(b as int / 16), Hex(b as int % 16)]
  }

  /** Two digits a byte, in memory order. */
  function GidText(bytes: seq<byte>): (s: string)
    ensures |s| == 2 * |bytes|
  {
    if bytes == [] then [] else GidText(bytes[..|bytes| - 1]) + ByteText(bytes[|bytes| - 1])
  }

  lemma ByteTextIsHex(b: byte)
    ensures AllHex(ByteText(b))
  {
    ValOfHex(b as int / 16);
    ValOfHex(b as int % 16);
  }

  lemma {:induction false} GidTextIsHex(bytes: seq<byte>)
    ensures AllHex(GidText(bytes))
  {
    if bytes != [] {
      GidTextIsHex(bytes[..|bytes| - 1]);
      ByteTextIsHex(bytes[|bytes| - 1]);
    }
  }

  lemma Nibbles(h: nat, l: nat)
    requires h < 16 && l < 16
    ensures (h * 16 + l) / 16 == h && (h * 16 + l) % 16 == l && h * 16 + l < 256
  {
  }

  /** Any two lowercase digits are the text of a byte. */
  lemma ByteOfText(hi: char, lo: char) returns (b: byte)
    requires IsLowerHex(hi) && IsLowerHex(lo)
    ensures ByteText(b) == [hi, lo]
  {
    Nibbles(HexVal(hi), HexVal(lo));
    HexOfVal(hi);
    HexOfVal(lo);
    b := (HexVal(hi) * 16 + HexVal(lo)) as byte;
  }

  lemma {:induction false} GidTextAppend(a: seq<byte>, b: seq<byte>)
    ensures GidText(a + b) == GidText(a) + GidText(b)
  {
    if b == [] {
      assert a + b == a;
    } else {
      GidTextAppend(a, b[..|b| - 1]);
      assert (a + b)[..|a + b| - 1] == a + b[..|b| - 1];
    }
  }

  // ----- a word of the gid as "%08x" -----

  /** The last `w` hex digits of `n`. */
  function Fixed(n: nat, w: nat): string {
    if w == 0 then [] else Fixed(n / 16, w - 1) + [Hex(n % 16)]
  }

  lemma {:induction false} FixedZero(w: nat)
    ensures Fixed(0, w) == Zeros(w)
  {
    if w > 0 {
      FixedZero(w - 1);
      assert Zeros(w) == Zeros(w - 1) + ['0'];
    }
  }

  lemma {:induction false} PaddedIsFixed(n: nat, w: nat)
    requires n < Pow16(w) && w > 0
    ensures Padded(n, w) == Fixed(n, w)
  {
    assert Pow16(w) == 16 * Pow16(w - 1);
    if n < 16 {
      FixedZero(w - 1);
      assert Zeros(w - 1) + [Hex(n)] == Padded(n, w);
    } else {
      assert n / 16 < Pow16(w - 1);
      PaddedIsFixed(n / 16, w - 1);
      PaddedWidth(n / 16, w - 1);
      var s := HexDigits(n / 16);
      if |s| < w - 1 { assert Zeros(w - 1 - |s|) + s + [Hex(n % 16)] == Zeros(w - 1 - |s|) + (s + [Hex(n % 16)]); }
    }
  }

  lemma FixedByte(n: nat, b: byte, w: nat)
    ensures Fixed(n * 256 + b as int, w + 2) == Fixed(n, w) + ByteText(b)
  {
    var v := n * 256 + b as int;
    assert v % 16 == b as int % 16 && v / 16 == n * 16 + b as int / 16;
    assert (v / 16) % 16 == b as int / 16 && v / 16 / 16 == n;
    assert Fixed(v, w + 2) == Fixed(v / 16, w + 1) + [Hex(v % 16)];
  }

  lemma OneText(b: byte)
    ensures GidText([b]) == ByteText(b)
  {
    assert [b][..0] == [];
  }

  lemma FourText(w: Word32)
    ensures GidText(WordBytes(w)) == ByteText(w.b0) + ByteText(w.b1) + ByteText(w.b2) + ByteText(w.b3)
  {
    OneText(w.b0); OneText(w.b1); OneText(w.b2); OneText(w.b3);
    GidTextAppend([w.b0], [w.b1]);
    GidTextAppend([w.b0] + [w.b1], [w.b2]);
    GidTextAppend([w.b0] + [w.b1] + [w.b2], [w.b3]);
    assert WordBytes(w) == [w.b0] + [w.b1] + [w.b2] + [w.b3];
  }

  lemma EightDigits()
    ensures Pow16(8) == TWO_32
  {
    assert Pow16(4) == 0x1_0000;
    assert Pow16(6) == 0x100_0000;
  }

  /** The number whose bytes, the high one first, are these. */
  function BigEndian(bytes: seq<byte>): nat {
    if bytes == [] then 0 else BigEndian(bytes[..|bytes| - 1]) * 256 + bytes[|bytes| - 1] as int
  }

  lemma {:induction false} FixedBytes(bytes: seq<byte>)
    ensures Fixed(BigEndian(bytes), 2 * |bytes|) == GidText(bytes)
  {
    if bytes != [] {
      var front := bytes[..|bytes| - 1];
      FixedBytes(front);
      FixedByte(BigEndian(front), bytes[|bytes| - 1], 2 * |front|);
    }
  }

  lemma SwappedValue(w: Word32)
    ensures Value(Swapped(w)) == BigEndian(WordBytes(w))
  {
    var s := WordBytes(w);
    assert s[..3] == [w.b0, w.b1, w.b2] && s[..3][..2] == [w.b0, w.b1] && s[..3][..2][..1] == [w.b0];
    assert BigEndian(s[..3][..2][..1]) == w.b0 as int;
    assert BigEndian(s[..3][..2]) == w.b0 as int * 256 + w.b1 as int;
    assert BigEndian(s[..3]) == BigEndian(s[..3][..2]) * 256 + w.b2 as int;
  }

  /** "%08x" of the byte-swapped word is the text of its four bytes in memory order. */
  lemma WordText(w: Word32)
    ensures Padded(Value(Swapped(w)), 8) == GidText(WordBytes(w))
  {
    EightDigits();
    PaddedIsFixed(Value(Swapped(w)), 8);
    SwappedValue(w);
    FixedBytes(WordBytes(w));
  }

  /** The word a chunk leaves in the variable `%x` is read into. */
  function ChunkWord(chunk: string, previous: Word32): Word32 {
    match ScanHex(chunk)
    case Some((v, _)) => OfValue(v)
    case None => previous
  }

  /** The variable after `n` chunks of eight characters. */
  function Variable(s: string, n: nat, junk: Word32): Word32
    requires 8 * n <= |s|
  {
    if n == 0 then junk else ChunkWord(s[8 * n - 8..8 * n], Variable(s, n - 1, junk))
  }

  function FourWords(w0: Word32, w1: Word32, w2: Word32, w3: Word32): (bytes: seq<byte>)
    ensures |bytes| == 16
  {
    WordBytes(w0) + WordBytes(w1) + WordBytes(w2) + WordBytes(w3)
  }

  /** The bytes `wire_gid_to_gid` makes of a text. */
  function Decoded(s: string, junk: Word32): seq<byte>
    requires |s| >= 32
  {
    FourWords(Swapped(Variable(s, 1, junk)), Swapped(Variable(s, 2, junk)),
              Swapped(Variable(s, 3, junk)), Swapped(Variable(s, 4, junk)))
  }

  /** `%x` reads the word back from its own text, whatever the variable held. */
  lemma ChunkOfWord(w: Word32, previous: Word32)
    ensures Swapped(ChunkWord(GidText(WordBytes(w)), previous)) == w
  {
    var n := Value(Swapped(w));
    var text := Padded(n, 8);
    WordText(w);
    ValueOfPadded(n, 8);
    ScanPrinted(text, []);
    assert text + [] == text;
    OfValueOf(Swapped(w));
  }

  /** The text of four words, and the chunk of each. */
  lemma TextOfWords(w0: Word32, w1: Word32, w2: Word32, w3: Word32)
    ensures GidText(FourWords(w0, w1, w2, w3)) == FourTexts(w0, w1, w2, w3)
  {
    GidTextAppend(WordBytes(w0), WordBytes(w1));
    GidTextAppend(WordBytes(w0) + WordBytes(w1), WordBytes(w2));
    GidTextAppend(WordBytes(w0) + WordBytes(w1) + WordBytes(w2), WordBytes(w3));
  }

  function FourTexts(w0: Word32, w1: Word32, w2: Word32, w3: Word32): string {
    GidText(WordBytes(w0)) + GidText(WordBytes(w1)) + GidText(WordBytes(w2)) + GidText(WordBytes(w3))
  }

  lemma FourSlices(a: string, b: string, c: string, d: string)
    requires |a| == 8 && |b| == 8 && |c| == 8 && |d| == 8
    ensures var s := a + b + c + d; |s| == 32 && s[0..8] == a && s[8..16] == b && s[16..24] == c && s[24..32] == d
  {
  }

  lemma VariableNext(s: string, n: nat, junk: Word32)
    requires 8 * n + 8 <= |s|
    ensures Variable(s, n + 1, junk) == ChunkWord(s[8 * n..8 * n + 8], Variable(s, n, junk))
  {
    assert s[8 * (n + 1) - 8..8 * (n + 1)] == s[8 * n..8 * n + 8];
  }

  lemma VariableReads(s: string, n: nat, w: Word32, junk: Word32)
    requires 8 * n + 8 <= |s| && s[8 * n..8 * n + 8] == GidText(WordBytes(w))
    ensures Swapped(Variable(s, n + 1, junk)) == w
  {
    ChunkOfWord(w, Variable(s, n, junk));
    VariableNext(s, n, junk);
  }

  lemma WordsRoundTrip(w0: Word32, w1: Word32, w2: Word32, w3: Word32, junk: Word32)
    ensures |FourTexts(w0, w1, w2, w3)| == 32
    ensures Decoded(FourTexts(w0, w1, w2, w3), junk) == FourWords(w0, w1, w2, w3)
  {
    var s := FourTexts(w0, w1, w2, w3);
    FourSlices(GidText(WordBytes(w0)), GidText(WordBytes(w1)), GidText(WordBytes(w2)), GidText(WordBytes(w3)));
    VariableReads(s, 0, w0, junk);
    VariableReads(s, 1, w1, junk);
    VariableReads(s, 2, w2, junk);
    VariableReads(s, 3, w3, junk);
  }

  lemma WordsOf(bytes: seq<byte>)
    requires |bytes| == 16
    ensures bytes == FourWords(WordAt(bytes, 0), WordAt(bytes, 4), WordAt(bytes, 8), WordAt(bytes, 12))
  {
  }

  /** Decoding the printed form gives back every 128-bit gid. */
  lemma GidRoundTrip(bytes: seq<byte>, junk: Word32)
    requires |bytes| == 16
    ensures Decoded(GidText(bytes), junk) == bytes
  {
    var w0, w1, w2, w3 := WordAt(bytes, 0), WordAt(bytes, 4), WordAt(bytes, 8), WordAt(bytes, 12);
    WordsOf(bytes);
    TextOfWords(w0, w1, w2, w3);
    WordsRoundTrip(w0, w1, w2, w3, junk);
  }

  predicate AllLower(s: string) {
    forall i :: 0 <= i < |s| ==> IsLowerHex(s[i])
  }

  lemma WordOfText(s: string) returns (w: Word32)
    requires |s| == 8 && AllLower(s)
    ensures GidText(WordBytes(w)) == s
  {
    var b0 := ByteOfText(s[0], s[1]);
    var b1 := ByteOfText(s[2], s[3]);
    var b2 := ByteOfText(s[4], s[5]);
    var b3 := ByteOfText(s[6], s[7]);
    w := Word32(b0, b1, b2, b3);
    FourText(w);
    assert s == [s[0], s[1]] + [s[2], s[3]] + [s[4], s[5]] + [s[6], s[7]];
  }

  /** Printing the decoded form gives back every text of 32 lowercase hex digits. */
  lemma TextRoundTrip(s: string, junk: Word32)
    requires |s| == 32 && AllLower(s)
    ensures GidText(Decoded(s, junk)) == s
  {
    var w0 := WordOfText(s[0..8]);
    var w1 := WordOfText(s[8..16]);
    var w2 := WordOfText(s[16..24]);
    var w3 := WordOfText(s[24..32]);
    assert s == s[0..8] + s[8..16] + s[16..24] + s[24..32];
    WordsRoundTrip(w0, w1, w2, w3, junk);
    TextOfWords(w0, w1, w2, w3);
  }

  // ----- in place -----

  /** `sprintf` of a finished text at `at`. */
  method Put(buf: array<char>, at: nat, text: string)
    requires at + |text| < buf.Length
    modifies buf
    ensures buf[..] == old(buf[..at]) + text + ['\0'] + old(buf[at + |text| + 1..])
  {
    var i := 0;
    while i < |text|
      invariant i <= |text|
      invariant buf[..at + i] == old(buf[..at]) + text[..i]
      invariant buf[at + i..] == old(buf[at + i..])
    {
      buf[at + i] := text[i];
      i := i + 1;
    }
    buf[at + |text|] := '\0';
    assert text[..i] == text;
    assert buf[..] == buf[..at + |text|] + [buf[at + |text|]] + buf[at + |text| + 1..];
  }

  method LoadWords(gid: array<byte>) returns (words: array<Word32>)
    requires gid.Length == 16
    ensures fresh(words) && words.Length == 4
    ensures forall i :: 0 <= i < 4 ==> words[i] == WordAt(gid[..], 4 * i)
  {
    words := new Word32[4];
    var i := 0;
    while i < 4
      invariant i <= 4
      invariant forall k :: 0 <= k < i ==> words[k] == WordAt(gid[..], 4 * k)
    {
      words[i] := Word32(gid[4 * i], gid[4 * i + 1], gid[4 * i + 2], gid[4 * i + 3]);
      i := i + 1;
    }
  }

  lemma NextWordText(bytes: seq<byte>, i: nat)
    requires i + 4 <= |bytes|
    ensures GidText(bytes[..i + 4]) == GidText(bytes[..i]) + Padded(Value(Swapped(WordAt(bytes, i))), 8)
    ensures |Padded(Value(Swapped(WordAt(bytes, i))), 8)| == 8
  {
    var w := WordAt(bytes, i);
    WordText(w);
    GidTextAppend(bytes[..i], WordBytes(w));
    assert bytes[..i + 4] == bytes[..i] + WordBytes(w);
  }

  /** A buffer filled from the left with `text` and, after it, a zero. */
  function FilledBy(was: string, text: string): string
    requires |text| < |was|
  {
    if text == [] then was else text + ['\0'] + was[|text| + 1..]
  }

  /** What one `sprintf` does to a buffer that is filled from the left. */
  lemma FilledOn(was: string, text: string, more: string)
    requires |text| + |more| < |was| && more != []
    ensures var before, n := FilledBy(was, text), |text| + |more|;
      before[..|text|] + more + ['\0'] + before[n + 1..] == FilledBy(was, text + more)
  {
    var before, n := FilledBy(was, text), |text| + |more|;
    assert before[n + 1..] == was[n + 1..];
    if text != [] { assert before[..|text|] == text; }
  }

  /** A `sprintf` that continues a text in the buffer. */
  method PutOn(buf: array<char>, at: nat, more: string, ghost was: string, ghost text: string)
    requires |text| == at && at + |more| < |was| == buf.Length && more != [] && buf[..] == FilledBy(was, text)
    modifies buf
    ensures buf[..] == FilledBy(was, text + more)
  {
    ghost var before := buf[..];
    FilledOn(was, text, more);
    Put(buf, at, more);
    assert buf[..] == before[..at] + more + ['\0'] + before[at + |more| + 1..];
  }

  /** One round of the loop: the buffer holds the text of `n` bytes, then of four more. */
  method PutWord(word: Word32, wgid: array<char>, n: nat, ghost was: string, ghost bytes: seq<byte>)
    requires n + 4 <= |bytes| && 2 * |bytes| < |was| == wgid.Length && word == WordAt(bytes, n)
    requires wgid[..] == FilledBy(was, GidText(bytes[..n]))
    modifies wgid
    ensures wgid[..] == FilledBy(was, GidText(bytes[..n + 4]))
  {
    NextWordText(bytes, n);
    PutOn(wgid, 2 * n, Padded(Value(Swapped(word)), 8), was, GidText(bytes[..n]));
  }

  /** `gid_to_wire_gid` */
  method GidToWire(gid: array<byte>, wgid: array<char>)
    requires gid.Length == 16 && wgid.Length >= 33
    modifies wgid
    ensures wgid[..] == GidText(gid[..]) + ['\0'] + old(wgid[33..])
  {
    ghost var bytes, was := gid[..], wgid[..];
    var words := LoadWords(gid);
    var i := 0;
    while i < 4
      invariant i <= 4
      invariant forall k :: 0 <= k < 4 ==> words[k] == WordAt(bytes, 4 * k)
      invariant wgid[..] == FilledBy(was, GidText(bytes[..4 * i]))
    {
      PutWord(words[i], wgid, 4 * i, was, bytes);
      assert 4 * (i + 1) == 4 * i + 4;
      i := i + 1;
    }
    assert bytes[..16] == bytes;
  }

  /** The final `memcpy` of the four words. */
  method StoreWords(words: array<Word32>, gid: array<byte>)
    requires words.Length == 4 && gid.Length == 16
    modifies gid
    ensures gid[..] == FourWords(words[0], words[1], words[2], words[3])
  {
    var i := 0;
    while i < 4
      invariant i <= 4
      invariant forall k :: 0 <= k < i ==> WordAt(gid[..], 4 * k) == words[k]
    {
      gid[4 * i], gid[4 * i + 1], gid[4 * i + 2], gid[4 * i + 3] := words[i].b0, words[i].b1, words[i].b2, words[i].b3;
      i := i + 1;
    }
    assert WordAt(gid[..], 4 * 0) == words[0] && WordAt(gid[..], 4 * 1) == words[1];
    assert WordAt(gid[..], 4 * 2) == words[2] && WordAt(gid[..], 4 * 3) == words[3];
  }

  /** `wire_gid_to_gid`; `junk` is what its uninitialised variable holds. */
  method WireToGid(wgid: array<char>, gid: array<byte>, junk: Word32)
    requires wgid.Length >= 32 && gid.Length == 16
    modifies gid
    ensures gid[..] == Decoded(wgid[..], junk)
  {
    ghost var text := wgid[..];
    var words := new Word32[4];
    var v32 := junk;
    var i := 0;
    while i < 4
      invariant i <= 4 && v32 == Variable(text, i, junk)
      invariant forall k :: 0 <= k < i ==> words[k] == Swapped(Variable(text, k + 1, junk))
    {
      VariableNext(text, i, junk);
      v32 := ChunkWord(wgid[8 * i..8 * i + 8], v32);
      words[i] := Swapped(v32);
      i := i + 1;
    }
    StoreWords(words, gid);
  }

  // ----- the address message -----

  /** `struct pingpong_dest`: three 32-bit ints and a gid. */
  datatype Dest = Dest(lid: int, qpn: int, psn: int, gid: seq<byte>)

  predicate ValidDest(d: Dest) {
    IsInt32(d.lid) && IsInt32(d.qpn) && IsInt32(d.psn) && |d.gid| == 16
  }

  /** `%x` prints an int through its unsigned value. */
  function Unsigned(i: int): Word { i % TWO_32 }

  /** "%04x:%06x:%06x:%s" */
  function MessageText(d: Dest): string {
    Padded(Unsigned(d.lid), 4)
    + (":" + (Padded(Unsigned(d.qpn), 6) + (":" + (Padded(Unsigned(d.psn), 6) + (":" + GidText(d.gid))))))
  }

  /** The buffer holds 51 characters and the terminating zero. */
  const MSG_SIZE: nat := 52

  lemma FourAndSix()
    ensures Pow16(4) == 0x1_0000 && Pow16(6) == 0x100_0000
  {
    assert Pow16(4) == 0x1_0000;
    assert Pow16(6) == 256 * Pow16(4);
  }

  /** A number printed with `w` digits takes `w` characters exactly if it fits them, more otherwise. */
  lemma FieldWidth(i: int, w: nat)
    requires IsInt32(i) && w > 0 && Pow16(w) <= 0x8000_0000
    ensures |Padded(Unsigned(i), w)| >= w && (|Padded(Unsigned(i), w)| == w <==> 0 <= i < Pow16(w))
  {
    PaddedWidth(Unsigned(i), w);
  }

  /** The message fits its buffer exactly when every field fits its printed width. */
  lemma MessageFits(d: Dest)
    requires ValidDest(d)
    ensures |MessageText(d)| < MSG_SIZE <==> 0 <= d.lid < 0x1_0000 && 0 <= d.qpn < 0x100_0000 && 0 <= d.psn < 0x100_0000
  {
    FourAndSix();
    FieldWidth(d.lid, 4);
    FieldWidth(d.qpn, 6);
    FieldWidth(d.psn, 6);
    MessageLength(d);
  }

  lemma MessageLength(d: Dest)
    requires ValidDest(d)
    ensures |MessageText(d)|
         == |Padded(Unsigned(d.lid), 4)| + |Padded(Unsigned(d.qpn), 6)| + |Padded(Unsigned(d.psn), 6)| + 35
  {
  }

  /** A virtual queue pair number: an IPv4 address as a little-endian host loads it. */
  function VirtualQpn(a: byte, b: byte, c: byte, d: byte): int {
    AsInt32(Value(Word32(a, b, c, d)))
  }

  /** The octets of the address, in the order they are printed in, are the bytes of the number from
      the low one up. */
  lemma OctetsReadBack(a: byte, b: byte, c: byte, d: byte)
    ensures var n := VirtualQpn(a, b, c, d) % TWO_32;
      n % 256 == a as int && n / 0x100 % 256 == b as int && n / 0x1_0000 % 256 == c as int && n / 0x100_0000 == d as int
  {
    var w := Word32(a, b, c, d);
    assert VirtualQpn(a, b, c, d) % TWO_32 == Value(w);
    var q1 := b as int + 256 * (c as int + 256 * d as int);
    DivByte(a, q1);
    DivByte(b, c as int + 256 * d as int);
    DivByte(c, d as int);
    assert Value(w) == a as int + 256 * q1;
    assert Value(w) / 0x100 == q1 && Value(w) / 0x1_0000 == q1 / 256 && Value(w) / 0x100_0000 == q1 / 256 / 256;
  }

  /** With a virtual queue pair number the message fits only for addresses ending in .0 */
  lemma VirtualQpnFits(dest: Dest, a: byte, b: byte, c: byte, d: byte)
    requires ValidDest(dest) && dest.qpn == VirtualQpn(a, b, c, d)
    requires 0 <= dest.lid < 0x1_0000 && 0 <= dest.psn < 0x100_0000
    ensures |MessageText(dest)| < MSG_SIZE <==> d == 0
  {
    var w := Word32(a, b, c, d);
    assert Value(w) < 0x100_0000 <==> d == 0;
    SmallInt(Value(w));
    MessageFits(dest);
  }

  lemma SmallInt(v: Word)
    ensures 0 <= AsInt32(v) < 0x100_0000 <==> v < 0x100_0000
  {
  }

  /** A field of the message that fits its width. */
  predicate IsField(s: string, w: nat, i: int) {
    |s| == w && AllHex(s) && HexValue(s) == i
  }

  lemma FieldFits(i: int, w: nat)
    requires 0 <= i < Pow16(w) && i < TWO_32 && w > 0
    ensures IsField(Padded(Unsigned(i), w), w, i)
  {
    PaddedWidth(Unsigned(i), w);
    ValueOfPadded(Unsigned(i), w);
  }

  /** Where the fields of a message that fits are: four digits, six, six and thirty-two, with colons
      between them, that read back as the fields. */
  lemma MessageLayout(d: Dest)
    requires ValidDest(d) && |MessageText(d)| < MSG_SIZE
    ensures var s := MessageText(d);
      && |s| == 51 && s[4] == ':' && s[11] == ':' && s[18] == ':'
      && IsField(s[..4], 4, d.lid) && IsField(s[5..11], 6, d.qpn) && IsField(s[12..18], 6, d.psn)
      && s[19..] == GidText(d.gid)
  {
    MessageFits(d);
    FourAndSix();
    FieldFits(d.lid, 4);
    FieldFits(d.qpn, 6);
    FieldFits(d.psn, 6);
    FieldsAt(Padded(Unsigned(d.lid), 4), Padded(Unsigned(d.qpn), 6), Padded(Unsigned(d.psn), 6), GidText(d.gid));
  }

  lemma FieldsAt(f1: string, f2: string, f3: string, g: string)
    requires |f1| == 4 && |f2| == 6 && |f3| == 6 && |g| == 32
    ensures var s := f1 + (":" + (f2 + (":" + (f3 + (":" + g)))));
      && |s| == 51 && s[4] == ':' && s[11] == ':' && s[18] == ':'
      && s[..4] == f1 && s[5..11] == f2 && s[12..18] == f3 && s[19..] == g
  {
  }

  /** Two digits a byte, the high one first, in memory order. */
  lemma {:induction false} GidTextAt(bytes: seq<byte>, k: nat)
    requires k < |bytes|
    ensures var s := GidText(bytes);
      && s[2 * k] == "0123456789abcdef"[bytes[k] as int / 16]
      && s[2 * k + 1] == "0123456789abcdef"[bytes[k] as int % 16]
  {
    if k < |bytes| - 1 {
      GidTextAt(bytes[..|bytes| - 1], k);
    } else {
      HexTable(bytes[k] as int / 16);
      HexTable(bytes[k] as int % 16);
    }
  }

  /** One "%x:" of the format: the number, and the rest if the colon is there. */
  function ScanField(s: string): Option<(int, string)> {
    match ScanHex(s)
    case None => None
    case Some((v, rest)) =>
      if rest != [] && rest[0] == ':' then Some((AsInt32(v), rest[1..])) else None
  }

  function Token(s: string): (t: string)
    ensures |t| <= |s|
  {
    if s == [] || IsSpace(s[0]) then [] else [s[0]] + Token(s[1..])
  }

  /** `sscanf(msg, "%x:%x:%x:%s", …)` when all four conversions succeed. */
  function ScanMessage(s: string): Option<(int, int, int, string)> {
    match ScanField(s)
    case None => None
    case Some((lid, s1)) =>
      match ScanField(s1)
      case None => None
      case Some((qpn, s2)) =>
        match ScanField(s2)
        case None => None
        case Some((psn, s3)) =>
          var gid := Token(SkipSpaces(s3));
          if gid == [] then None else Some((lid, qpn, psn, gid))
  }

  lemma FieldScans(i: int, w: nat, rest: string)
    requires IsInt32(i)
    ensures ScanField(Padded(Unsigned(i), w) + (":" + rest)) == Some((i, rest))
  {
    ValueOfPadded(Unsigned(i), w);
    ScanPrinted(Padded(Unsigned(i), w), ":" + rest);
    assert (":" + rest)[1..] == rest;
  }

  /** `%s` takes everything up to white space. */
  lemma {:induction false} TokenStops(t: string, c: char, rest: string)
    requires (forall i :: 0 <= i < |t| ==> !IsSpace(t[i])) && (c == ' ' || '\t' <= c <= '\r')
    ensures Token(t + ([c] + rest)) == t
  {
    if t != [] {
      TokenStops(t[1..], c, rest);
      assert (t + ([c] + rest))[1..] == t[1..] + ([c] + rest);
    }
  }

  lemma {:induction false} HexToken(s: string)
    requires AllHex(s)
    ensures Token(s) == s && SkipSpaces(s) == s
  {
    if s != [] { HexToken(s[1..]); }
  }

  /** Scanning the printed message recovers all four fields, for every lid, qpn and psn. */
  lemma MessageRoundTrip(d: Dest)
    requires ValidDest(d)
    ensures ScanMessage(MessageText(d)) == Some((d.lid, d.qpn, d.psn, GidText(d.gid)))
  {
    var s3 := GidText(d.gid);
    var s2 := Padded(Unsigned(d.psn), 6) + (":" + s3);
    var s1 := Padded(Unsigned(d.qpn), 6) + (":" + s2);
    FieldScans(d.lid, 4, s1);
    FieldScans(d.qpn, 6, s2);
    FieldScans(d.psn, 6, s3);
    GidTextIsHex(d.gid);
    HexToken(s3);
  }

  /** A buffer read as a C string. */
  function CString(s: string): string {
    if s == [] || s[0] == '\0' then [] else [s[0]] + CString(s[1..])
  }

  lemma {:induction false} CStringOf(text: string, tail: string)
    requires NoZero(text)
    ensures CString(text + ['\0'] + tail) == text
  {
    var s := text + ['\0'] + tail;
    if text != [] {
      CStringOf(text[1..], tail);
      assert s[1..] == text[1..] + ['\0'] + tail;
    }
  }

  predicate NoZero(s: string) {
    forall i :: 0 <= i < |s| ==> s[i] != '\0'
  }

  lemma MessageHasNoZero(d: Dest)
    requires ValidDest(d)
    ensures NoZero(MessageText(d))
  {
    GidTextIsHex(d.gid);
    var s3 := ":" + GidText(d.gid);
    assert NoZero(s3);
    var s2 := ":" + (Padded(Unsigned(d.psn), 6) + s3);
    assert NoZero(s2);
    var s1 := ":" + (Padded(Unsigned(d.qpn), 6) + s2);
    assert NoZero(s1);
  }

  method SendDest(d: Dest, msg: array<char>)
    requires ValidDest(d) && |MessageText(d)| < msg.Length
    modifies msg
    ensures CString(msg[..]) == MessageText(d)
  {
    MessageHasNoZero(d);
    PutWhole(msg, MessageText(d));
  }

  method PutWhole(msg: array<char>, text: string)
    requires |text| < msg.Length && NoZero(text)
    modifies msg
    ensures CString(msg[..]) == text
  {
    ghost var before := msg[..];
    Put(msg, 0, text);
    CStringOf(text, before[|text| + 1..]);
    assert before[..0] + text == text;
  }

  lemma SentFields(sent: Dest, s: string, fields: Option<(int, int, int, string)>, junk: Word32)
    requires ValidDest(sent) && s == MessageText(sent) && fields == ScanMessage(s)
    ensures fields == Some((sent.lid, sent.qpn, sent.psn, GidText(sent.gid)))
    ensures |fields.value.3| == 32 && Decoded(fields.value.3, junk) == sent.gid
  {
    MessageRoundTrip(sent);
    GidRoundTrip(sent.gid, junk);
  }

  method DecodeText(text: string, junk: Word32) returns (bytes: seq<byte>)
    requires |text| >= 32
    ensures bytes == Decoded(text, junk)
  {
    var wgid := new char[|text|](i requires 0 <= i < |text| => text[i]);
    assert wgid[..] == text;
    var gid := new byte[16];
    WireToGid(wgid, gid, junk);
    bytes := gid[..];
  }

  /** The receiving side; None when the message does not scan. */
  method ReceiveDest(msg: array<char>, junk: Word32) returns (d: Option<Dest>)
    ensures forall sent: Dest :: ValidDest(sent) && CString(msg[..]) == MessageText(sent) ==> d == Some(sent)
  {
    var fields := ScanMessage(CString(msg[..]));
    d := None;
    if fields.Some? && |fields.value.3| >= 32 {
      var text := fields.value.3;
      var gid := DecodeText(text, junk);
      d := Some(Dest(fields.value.0, fields.value.1, fields.value.2, gid));
    }
    forall sent: Dest | ValidDest(sent) && CString(msg[..]) == MessageText(sent) ensures d == Some(sent) {
      SentFields(sent, CString(msg[..]), fields, junk);
    }
  }
}
