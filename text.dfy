/**
 * The parts of Go's `strings`, `strconv` and `unicode/utf8` packages, and of Go's
 * fixed-width integers, that the modelled code relies on.
 *
 * A Go string is modelled as the sequence of its runes (Dafny's `char` is a Unicode
 * scalar value); where the code counts or slices BYTES, `Utf8Encode` gives the bytes.
 */
module Text {
  import opened Wrappers

  type Byte = b: int | 0 <= b < 0x100

  const MinInt64: int := -0x8000_0000_0000_0000
  const MaxInt64: int := 0x7FFF_FFFF_FFFF_FFFF
  const MaxUint64: int := 0xFFFF_FFFF_FFFF_FFFF
  const MaxUint32: int := 0xFFFF_FFFF

  /** Go's `int` and `int64` on a 64-bit platform. */
  type Int64 = x: int | -0x8000_0000_0000_0000 <= x <= 0x7FFF_FFFF_FFFF_FFFF

  /** Two's-complement wrap-around of a 64-bit Go integer operation. */
  function Wrap64(x: int): (r: Int64)
    ensures MinInt64 <= x <= MaxInt64 ==> r == x
  {
    (x - MinInt64) % 0x1_0000_0000_0000_0000 + MinInt64
  }

  // ---------------------------------------------------------------------------
  // White space and trimming (strings.TrimSpace)
  // ---------------------------------------------------------------------------

  /** Go's unicode.IsSpace. */
  predicate IsSpace(c: char) {
    c == '\t' || c == '\n' || c == '\U{0B}' || c == '\U{0C}' || c == '\r' || c == ' ' ||
    c == '\U{85}' || c == '\U{A0}' || c == '\U{1680}' || ('\U{2000}' <= c <= '\U{200A}') ||
    c == '\U{2028}' || c == '\U{2029}' || c == '\U{202F}' || c == '\U{205F}' || c == '\U{3000}'
  }

  /** No white space at either end. */
  predicate Trimmed(s: string) {
    s == [] || (!IsSpace(s[0]) && !IsSpace(s[|s| - 1]))
  }

  function TrimLeftSpace(s: string): (r: string)
    ensures |r| <= |s| && r == s[|s| - |r|..]
    ensures r == [] || !IsSpace(r[0])
    ensures forall i :: 0 <= i < |s| - |r| ==> IsSpace(s[i])
  {
    if s != [] && IsSpace(s[0]) then TrimLeftSpace(s[1..]) else s
  }

  function TrimRightSpace(s: string): (r: string)
    ensures |r| <= |s| && r == s[..|r|]
    ensures r == [] || !IsSpace(r[|r| - 1])
    ensures forall i :: |r| <= i < |s| ==> IsSpace(s[i])
  {
    if s != [] && IsSpace(s[|s| - 1]) then TrimRightSpace(s[..|s| - 1]) else s
  }

  /** Go's strings.TrimSpace: drops the white space at both ends and nothing else. */
  function TrimSpace(s: string): (r: string)
    ensures Trimmed(r) && |r| <= |s|
    ensures Trimmed(s) ==> r == s
    ensures s != [] && !IsSpace(s[|s| - 1]) ==> r != [] && r[|r| - 1] == s[|s| - 1]
  {
    var l := TrimLeftSpace(s);
    assert s != [] && !IsSpace(s[|s| - 1]) ==> l != [] && l[|l| - 1] == s[|s| - 1];
    TrimRightSpace(l)
  }

  /** One white-space character after a trimmed string is dropped again by TrimSpace. */
  lemma TrimSpaceDropsTrailingSpace(s: string, c: char)
    requires Trimmed(s) && IsSpace(c)
    ensures TrimSpace(s + [c]) == s
  {
    var t := s + [c];
    if s == [] {
      assert TrimLeftSpace(t) == TrimLeftSpace(t[1..]);
    } else {
      assert t[0] == s[0];
      assert TrimLeftSpace(t) == t;
      assert t[..|t| - 1] == s;
      assert TrimRightSpace(t) == TrimRightSpace(s);
      assert TrimRightSpace(s) == s;
    }
  }

  // ---------------------------------------------------------------------------
  // Prefixes, suffixes and substrings
  // ---------------------------------------------------------------------------

  predicate HasPrefix(s: string, p: string) {
    |p| <= |s| && s[..|p|] == p
  }

  /** A string with a non-empty prefix starts with the prefix's first character. */
  lemma PrefixFirstChar(s: string, p: string)
    requires p != []
    ensures HasPrefix(s, p) ==> s != [] && s[0] == p[0]
  {
    if HasPrefix(s, p) {
      assert s[..|p|][0] == s[0];
    }
  }

  predicate HasSuffix(s: string, p: string) {
    |p| <= |s| && s[|s| - |p|..] == p
  }

  /** A string with a non-empty suffix ends with the suffix's last character. */
  lemma SuffixLastChar(s: string, p: string)
    requires p != []
    ensures HasSuffix(s, p) ==> s != [] && s[|s| - 1] == p[|p| - 1]
  {
    if HasSuffix(s, p) {
      assert s[|s| - |p|..][|p| - 1] == s[|s| - 1];
    }
  }

  /** Go's strings.TrimPrefix: removes `p` once, if `s` starts with it. */
  function TrimPrefix(s: string, p: string): (r: string)
    ensures HasPrefix(s, p) ==> p + r == s
    ensures !HasPrefix(s, p) ==> r == s
  {
    if HasPrefix(s, p) then s[|p|..] else s
  }

  /** Go's strings.TrimSuffix: removes `p` once, if `s` ends with it. */
  function TrimSuffix(s: string, p: string): (r: string)
    ensures HasSuffix(s, p) ==> r + p == s
    ensures !HasSuffix(s, p) ==> r == s
  {
    if HasSuffix(s, p) then s[..|s| - |p|] else s
  }

  predicate OccursAt(s: string, sep: string, i: int) {
    0 <= i && i + |sep| <= |s| && s[i..i + |sep|] == sep
  }

  function IndexFrom(s: string, sep: string, k: nat): (r: int)
    requires k <= |s|
    ensures r == -1 || (k <= r && OccursAt(s, sep, r))
    ensures r == -1 ==> forall i :: k <= i ==> !OccursAt(s, sep, i)
    ensures r != -1 ==> forall i :: k <= i < r ==> !OccursAt(s, sep, i)
    decreases |s| - k
  {
    if k + |sep| > |s| then -1
    else if s[k..k + |sep|] == sep then k
    else IndexFrom(s, sep, k + 1)
  }

  /** Go's strings.Index: the first position at which `sep` occurs in `s`, or -1. */
  function Index(s: string, sep: string): (r: int)
    ensures r == -1 <==> forall i :: !OccursAt(s, sep, i)
    ensures r != -1 ==> OccursAt(s, sep, r) && forall i :: 0 <= i < r ==> !OccursAt(s, sep, i)
  {
    IndexFrom(s, sep, 0)
  }

  /** Go's strings.Contains. */
  predicate Contains(s: string, sub: string) {
    Index(s, sub) != -1
  }

  lemma ContainsAt(s: string, sub: string, i: int)
    requires OccursAt(s, sub, i)
    ensures Contains(s, sub)
  {
  }

  // ---------------------------------------------------------------------------
  // Case
  // ---------------------------------------------------------------------------

  /**
   * unicode.ToLower as far as it matters here: ASCII letters, and the two non-ASCII
   * runes whose lower case is an ASCII letter (U+0130 to 'i', the Kelvin sign U+212A
   * to 'k'). Every other rune is kept.
   */
  function LowerRune(c: char): char {
    if 'A' <= c <= 'Z' then (c as int + 32) as char
    else if c == '\U{130}' then 'i'
    else if c == '\U{212A}' then 'k'
    else c
  }

  /** Go's strings.ToLower, rune by rune. */
  function ToLower(s: string): (r: string)
    ensures |r| == |s| && forall i :: 0 <= i < |s| ==> r[i] == LowerRune(s[i])
  {
    seq(|s|, i requires 0 <= i < |s| => LowerRune(s[i]))
  }

  // ---------------------------------------------------------------------------
  // Joining
  // ---------------------------------------------------------------------------

  /** Go's strings.Join. */
  function Join(parts: seq<string>, sep: string): (r: string)
    decreases |parts|
  {
    if parts == [] then ""
    else if |parts| == 1 then parts[0]
    else parts[0] + sep + Join(parts[1..], sep)
  }

  // ---------------------------------------------------------------------------
  // Decimal numbers (fmt's %d, strconv.ParseUint, strconv.Atoi)
  // ---------------------------------------------------------------------------

  predicate IsDigit(c: char) {
    '0' <= c <= '9'
  }

  predicate AllDigits(s: string) {
    forall i :: 0 <= i < |s| ==> IsDigit(s[i])
  }

  function DigitChar(d: nat): (c: char)
    requires d < 10
    ensures IsDigit(c)
  {
    ('0' as int + d) as char
  }

  /** The value of a run of decimal digits, most significant first. */
  function DigitsValue(s: string): nat
    requires AllDigits(s)
    decreases |s|
  {
    if s == [] then 0 else DigitsValue(s[..|s| - 1]) * 10 + (s[|s| - 1] as int - '0' as int)
  }

  /** fmt's %d of a non-negative number: digits without leading zeros. */
  function NatToDecimal(n: nat): (r: string)
    ensures r != [] && AllDigits(r)
    ensures |r| > 1 ==> r[0] != '0'
  {
    if n < 10 then [DigitChar(n)] else NatToDecimal(n / 10) + [DigitChar(n % 10)]
  }

  /** fmt's %d of any integer. */
  function IntToDecimal(n: int): (r: string)
    ensures r != []
  {
    if n < 0 then "-" + NatToDecimal(-n) else NatToDecimal(n)
  }

  /** Reading back the digits that %d prints gives the number printed. */
  lemma {:induction false} DecimalRoundTrip(n: nat)
    ensures DigitsValue(NatToDecimal(n)) == n
  {
    if n >= 10 {
      DecimalRoundTrip(n / 10);
      var s := NatToDecimal(n);
      assert s[..|s| - 1] == NatToDecimal(n / 10);
    }
  }

  /**
   * strconv.ParseUint(s, 10, 32): a non-empty run of ASCII digits (no sign, no
   * underscore; leading zeros allowed) whose value fits in 32 bits.
   */
  function ParseUint32(s: string): (r: Option<nat>)
    ensures r.Some? ==> r.value <= MaxUint32 && AllDigits(s) && r.value == DigitsValue(s)
    ensures r.None? <==> s == [] || !AllDigits(s) || DigitsValue(s) > MaxUint32
  {
    if s != [] && AllDigits(s) && DigitsValue(s) <= MaxUint32 then Some(DigitsValue(s)) else None
  }

  /** Every ID printed with %d parses back to itself. */
  lemma ParseUint32OfDecimal(n: nat)
    requires n <= MaxUint32
    ensures ParseUint32(NatToDecimal(n)) == Some(n)
  {
    DecimalRoundTrip(n);
  }

  /** The number of leading ASCII digits of `s`. */
  function DigitPrefixLen(s: string): (k: nat)
    ensures k <= |s| && AllDigits(s[..k])
    ensures k < |s| ==> !IsDigit(s[k])
  {
    if s == [] || !IsDigit(s[0]) then 0
    else
      var k' := DigitPrefixLen(s[1..]);
      assert s[..1 + k'] == [s[0]] + s[1..][..k'];
      1 + k'
  }

  function Clamp64(x: int): Int64 {
    if x < MinInt64 then MinInt64 else if x > MaxInt64 then MaxInt64 else x
  }

  /**
   * strconv.Atoi with its error ignored, as the admin API uses it. An optional sign and
   * then digits; a syntax error yields 0, while a value out of range yields the nearest
   * int64 bound. The digit scan reports overflow as soon as the digits read so far exceed
   * 64 bits, before it reaches a later non-digit.
   */
  function Atoi(s: string): Int64 {
    var neg := s != [] && s[0] == '-';
    var body := if s != [] && (s[0] == '-' || s[0] == '+') then s[1..] else s;
    var k := DigitPrefixLen(body);
    var v := DigitsValue(body[..k]);
    if body == [] then 0
    else if v > MaxUint64 then (if neg then MinInt64 else MaxInt64)
    else if k < |body| then 0
    else Clamp64(if neg then -(v as int) else v)
  }

  /** Atoi reads back what %d prints. */
  lemma AtoiOfDecimal(n: Int64)
    ensures Atoi(IntToDecimal(n)) == n
  {
    var m: nat := if n < 0 then -(n as int) else n;
    var d := NatToDecimal(m);
    DecimalRoundTrip(m);
    assert d[..|d|] == d;
    if n < 0 {
      assert IntToDecimal(n)[1..] == d;
    }
  }

  // ---------------------------------------------------------------------------
  // UTF-8
  // ---------------------------------------------------------------------------

  /** The UTF-8 encoding of one rune. */
  function Utf8EncodeRune(c: char): (r: seq<Byte>)
    ensures 1 <= |r| <= 4
    ensures |r| == 1 <==> c as int < 0x80
  {
    var v := c as int;
    if v < 0x80 then [v]
    else if v < 0x800 then [0xC0 + v / 0x40, 0x80 + v % 0x40]
    else if v < 0x10000 then [0xE0 + v / 0x1000, 0x80 + (v / 0x40) % 0x40, 0x80 + v % 0x40]
    else [0xF0 + v / 0x40000, 0x80 + (v / 0x1000) % 0x40, 0x80 + (v / 0x40) % 0x40, 0x80 + v % 0x40]
  }

  /** The bytes of a Go string: `[]byte(s)`; `len(s)` is their number. */
  function Utf8Encode(s: string): (r: seq<Byte>)
    ensures |r| >= |s|
  {
    if s == [] then [] else Utf8EncodeRune(s[0]) + Utf8Encode(s[1..])
  }

  /** Encoding distributes over concatenation. */
  lemma {:induction false} Utf8EncodeAppend(a: string, b: string)
    ensures Utf8Encode(a + b) == Utf8Encode(a) + Utf8Encode(b)
  {
    if a == [] {
      assert a + b == b;
    } else {
      assert (a + b)[0] == a[0] && (a + b)[1..] == a[1..] + b;
      calc {
        Utf8Encode(a + b);
        Utf8EncodeRune(a[0]) + Utf8Encode(a[1..] + b);
        { Utf8EncodeAppend(a[1..], b); }
        Utf8EncodeRune(a[0]) + (Utf8Encode(a[1..]) + Utf8Encode(b));
      }
    }
  }

  /** Byte length and rune count agree exactly on ASCII text. */
  lemma {:induction false} Utf8LengthAscii(s: string)
    requires forall i :: 0 <= i < |s| ==> s[i] as int < 0x80
    ensures |Utf8Encode(s)| == |s|
  {
    if s != [] {
      Utf8LengthAscii(s[1..]);
    }
  }

  /** The byte white space that Go's TrimSpace removes from ASCII text. */
  predicate IsAsciiSpaceByte(b: Byte) {
    b == 9 || b == 10 || b == 11 || b == 12 || b == 13 || b == 32
  }

  /** The number of ASCII white-space bytes at the start of `s`. */
  function LeadingSpaceBytes(s: seq<Byte>): (n: nat)
    ensures n <= |s|
    ensures forall i :: 0 <= i < n ==> IsAsciiSpaceByte(s[i])
    ensures n < |s| ==> !IsAsciiSpaceByte(s[n])
  {
    if s != [] && IsAsciiSpaceByte(s[0]) then
      var n := LeadingSpaceBytes(s[1..]);
      assert forall i :: 1 <= i < 1 + n ==> s[i] == s[1..][i - 1];
      1 + n
    else 0
  }

  function TrimRightSpaceBytes(s: seq<Byte>): (r: seq<Byte>)
    ensures |r| <= |s| && r == s[..|r|]
    ensures r == [] || !IsAsciiSpaceByte(r[|r| - 1])
    ensures forall i :: |r| <= i < |s| ==> IsAsciiSpaceByte(s[i])
  {
    if s != [] && IsAsciiSpaceByte(s[|s| - 1]) then TrimRightSpaceBytes(s[..|s| - 1]) else s
  }

  /**
   * strings.TrimSpace on a byte string, for ASCII white space: the slice left after the
   * white space at both ends is dropped.
   */
  function TrimSpaceBytes(s: seq<Byte>): (r: seq<Byte>)
    ensures LeadingSpaceBytes(s) + |r| <= |s|
    ensures r == s[LeadingSpaceBytes(s)..LeadingSpaceBytes(s) + |r|]
    ensures r == [] || (!IsAsciiSpaceByte(r[0]) && !IsAsciiSpaceByte(r[|r| - 1]))
    ensures forall i :: LeadingSpaceBytes(s) + |r| <= i < |s| ==> IsAsciiSpaceByte(s[i])
  {
    var a := LeadingSpaceBytes(s);
    var r := TrimRightSpaceBytes(s[a..]);
    assert forall i :: a + |r| <= i < |s| ==> s[i] == s[a..][i - a];
    r
  }
}
