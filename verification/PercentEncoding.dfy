/** `encodeURIComponent` and `decodeURIComponent` (section 19.2.6 of ECMA-262) over UTF-8. A `string`
    here is a sequence of Unicode scalar values: exactly the strings that can be encoded at all. */
module PercentEncoding {
  import opened SecurityTypes

  type Byte = b: int | 0 <= b < 256

  // ---- UTF-8 ----

  /** A code point in groups of six bits behind a leading byte. */
  function Utf8(c: char): seq<Byte> {
    var n := c as int;
    if n < 0x80 then [n]
    else if n < 0x800 then [0xC0 + n / 64, 0x80 + n % 64]
    else if n < 0x10000 then [0xE0 + n / 64 / 64, 0x80 + n / 64 % 64, 0x80 + n % 64]
    else [0xF0 + n / 64 / 64 / 64, 0x80 + n / 64 / 64 % 64, 0x80 + n / 64 % 64, 0x80 + n % 64]
  }

  /** How many bytes a sequence starting with this byte has; 0 for a byte that starts none. */
  function SequenceLength(first: Byte): nat {
    if first < 0x80 then 1
    else if 0xC0 <= first < 0xE0 then 2
    else if 0xE0 <= first < 0xF0 then 3
    else if 0xF0 <= first < 0xF8 then 4
    else 0
  }

  predicate IsContinuation(b: Byte) {
    0x80 <= b < 0xC0
  }

  /** A code point, unless it is a surrogate, out of range, or shorter encodings exist for it. */
  function CodePoint(n: int, least: int): Option<char>
    requires least >= 0
  {
    if n < least || 0xD800 <= n < 0xE000 || n >= 0x110000 then None else Some(n as char)
  }

  function Two(a: int, b: int): int {
    (a - 0xC0) * 64 + (b - 0x80)
  }

  function Three(a: int, b: int, c: int): int {
    ((a - 0xE0) * 64 + (b - 0x80)) * 64 + (c - 0x80)
  }

  function Four(a: int, b: int, c: int, d: int): int {
    (((a - 0xF0) * 64 + (b - 0x80)) * 64 + (c - 0x80)) * 64 + (d - 0x80)
  }

  function FromUtf8(octets: seq<Byte>): Option<char> {
    if exists i | 1 <= i < |octets| :: !IsContinuation(octets[i]) then None
    else if |octets| == 1 then CodePoint(octets[0], 0)
    else if |octets| == 2 then CodePoint(Two(octets[0], octets[1]), 0x80)
    else if |octets| == 3 then CodePoint(Three(octets[0], octets[1], octets[2]), 0x800)
    else if |octets| == 4 then CodePoint(Four(octets[0], octets[1], octets[2], octets[3]), 0x10000)
    else None
  }

  lemma SixBits(n: nat)
    ensures n == n / 64 * 64 + n % 64 && 0 <= n % 64 < 64
  {
  }

  lemma Utf8RoundTrip(c: char)
    ensures FromUtf8(Utf8(c)) == Some(c)
    ensures SequenceLength(Utf8(c)[0]) == |Utf8(c)|
  {
    var n := c as int;
    var bytes := Utf8(c);
    SixBits(n);
    SixBits(n / 64);
    SixBits(n / 64 / 64);
    if |bytes| == 2 {
      assert Two(bytes[0], bytes[1]) == n;
    } else if |bytes| == 3 {
      assert Three(bytes[0], bytes[1], bytes[2]) == n;
    } else if |bytes| == 4 {
      assert Four(bytes[0], bytes[1], bytes[2], bytes[3]) == n;
    }
  }

  // ---- Escapes ----

  function HexDigit(n: int): char
    requires 0 <= n < 16
  {
    if n < 10 then (n + '0' as int) as char else (n - 10 + 'A' as int) as char
  }

  function HexValue(c: char): Option<int> {
    if '0' <= c <= '9' then Some(c as int - '0' as int)
    else if 'A' <= c <= 'F' then Some(c as int - 'A' as int + 10)
    else if 'a' <= c <= 'f' then Some(c as int - 'a' as int + 10)
    else None
  }

  lemma HexRoundTrip(n: int)
    requires 0 <= n < 16
    ensures HexValue(HexDigit(n)) == Some(n)
    ensures IsLetterOrDigit(HexDigit(n))
  {
  }

  function Escape(b: Byte): string {
    ['%', HexDigit(b / 16), HexDigit(b % 16)]
  }

  function EscapeAll(bytes: seq<Byte>): string {
    if bytes == [] then [] else Escape(bytes[0]) + EscapeAll(bytes[1..])
  }

  function ReadEscape(t: string): Option<Byte> {
    if |t| < 3 || t[0] != '%' then None
    else match (HexValue(t[1]), HexValue(t[2]))
      case (Some(high), Some(low)) => if 0 <= high < 16 && 0 <= low < 16 then Some(high * 16 + low) else None
      case (_, _) => None
  }

  /** The bytes of n escapes in a row. */
  function ReadEscapes(t: string, n: nat): (r: Option<seq<Byte>>)
    ensures r.Some? ==> |t| >= 3 * n && |r.value| == n
  {
    if n == 0 then Some([])
    else match ReadEscape(t)
      case None => None
      case Some(b) =>
        match ReadEscapes(t[3..], n - 1)
        case None => None
        case Some(rest) => Some([b] + rest)
  }

  lemma EscapeReads(b: Byte, rest: string)
    ensures ReadEscape(Escape(b) + rest) == Some(b)
    ensures (Escape(b) + rest)[3..] == rest
  {
    HexRoundTrip(b / 16);
    HexRoundTrip(b % 16);
  }

  lemma OneMoreRead(b: Byte, tail: string, n: nat)
    requires ReadEscapes(tail, n).Some?
    ensures ReadEscapes(Escape(b) + tail, n + 1) == Some([b] + ReadEscapes(tail, n).value)
  {
    EscapeReads(b, tail);
  }

  lemma {:induction false} EscapesRead(bytes: seq<Byte>, rest: string)
    ensures ReadEscapes(EscapeAll(bytes) + rest, |bytes|) == Some(bytes)
    ensures |EscapeAll(bytes)| == 3 * |bytes|
  {
    if bytes != [] {
      var tail := EscapeAll(bytes[1..]) + rest;
      assert EscapeAll(bytes) + rest == Escape(bytes[0]) + tail;
      EscapesRead(bytes[1..], rest);
      OneMoreRead(bytes[0], tail, |bytes| - 1);
      assert bytes == [bytes[0]] + bytes[1..];
    }
  }

  // ---- Components ----

  predicate IsLetterOrDigit(c: char) {
    'A' <= c <= 'Z' || 'a' <= c <= 'z' || '0' <= c <= '9'
  }

  predicate IsUnescaped(c: char) {
    IsLetterOrDigit(c) || c in {'-', '_', '.', '!', '~', '*', '\'', '(', ')'}
  }

  function EncodeChar(c: char): string {
    if IsUnescaped(c) then [c] else EscapeAll(Utf8(c))
  }

  function EncodeURIComponent(s: string): string {
    if s == [] then [] else EncodeChar(s[0]) + EncodeURIComponent(s[1..])
  }

  function Prepend(c: char, rest: Option<string>): Option<string> {
    match rest case Some(text) => Some([c] + text) case None => None
  }

  /** `decodeURIComponent`; `None` where it throws. */
  function DecodeURIComponent(t: string): Option<string>
    decreases |t|
  {
    if t == [] then Some([])
    else if t[0] != '%' then Prepend(t[0], DecodeURIComponent(t[1..]))
    else match ReadEscape(t)
      case None => None
      case Some(first) =>
        var n := SequenceLength(first);
        if n == 0 then None
        else match ReadEscapes(t, n)
          case None => None
          case Some(octets) =>
            match FromUtf8(octets)
            case None => None
            case Some(c) => Prepend(c, DecodeURIComponent(t[3 * n..]))
  }

  lemma DecodesEscapes(c: char, rest: string)
    ensures DecodeURIComponent(EscapeAll(Utf8(c)) + rest) == Prepend(c, DecodeURIComponent(rest))
  {
    var bytes := Utf8(c);
    var t := EscapeAll(bytes) + rest;
    Utf8RoundTrip(c);
    EscapesRead(bytes, rest);
    var tail := EscapeAll(bytes[1..]) + rest;
    assert t == Escape(bytes[0]) + tail;
    EscapeReads(bytes[0], tail);
    assert t[3 * |bytes|..] == rest;
    assert t != [] && t[0] == '%';
  }

  lemma DecodesChar(c: char, rest: string)
    ensures DecodeURIComponent(EncodeChar(c) + rest) == Prepend(c, DecodeURIComponent(rest))
  {
    if IsUnescaped(c) {
      assert ([c] + rest)[1..] == rest;
    } else {
      DecodesEscapes(c, rest);
    }
  }

  /** Decoding undoes encoding, for every string that can be encoded. */
  lemma {:induction false} ComponentRoundTrip(s: string)
    ensures DecodeURIComponent(EncodeURIComponent(s)) == Some(s)
  {
    if s != [] {
      DecodesChar(s[0], EncodeURIComponent(s[1..]));
      ComponentRoundTrip(s[1..]);
      assert s == [s[0]] + s[1..];
    }
  }

  lemma ComponentInjective(s: string, t: string)
    requires EncodeURIComponent(s) == EncodeURIComponent(t)
    ensures s == t
  {
    ComponentRoundTrip(s);
    ComponentRoundTrip(t);
  }

  lemma {:induction false} EscapesArePlain(bytes: seq<Byte>)
    ensures forall x :: x in EscapeAll(bytes) ==> x == '%' || IsLetterOrDigit(x)
  {
    if bytes != [] {
      HexRoundTrip(bytes[0] / 16);
      HexRoundTrip(bytes[0] % 16);
      EscapesArePlain(bytes[1..]);
    }
  }

  /** An encoded component holds unescaped characters and percent signs only: no separator. */
  lemma {:induction false} ComponentIsPlain(s: string)
    ensures forall x :: x in EncodeURIComponent(s) ==>
              || x == '%' || 'a' <= x <= 'z' || 'A' <= x <= 'Z' || '0' <= x <= '9'
              || x in {'-', '_', '.', '!', '~', '*', '\'', '(', ')'}
  {
    if s != [] {
      EscapesArePlain(Utf8(s[0]));
      ComponentIsPlain(s[1..]);
    }
  }

  /** Letters of two and three bytes, in capital hexadecimal digits. */
  lemma EncodesTwoBytes()
    ensures EncodeURIComponent("\U{15F}") == "%C5%9F"
  {
    EncodesOne('\U{15F}');
    assert Utf8('\U{15F}') == [0xC5, 0x9F];
    EscapesTwo(0xC5, 0x9F);
    assert Escape(0xC5) == "%C5" && Escape(0x9F) == "%9F";
  }

  lemma EncodesThreeBytes()
    ensures EncodeURIComponent("\U{20AC}") == "%E2%82%AC"
  {
    EncodesOne('\U{20AC}');
    assert Utf8('\U{20AC}') == [0xE2, 0x82, 0xAC];
    EscapesThree(0xE2, 0x82, 0xAC);
    assert Escape(0xE2) == "%E2" && Escape(0x82) == "%82" && Escape(0xAC) == "%AC";
  }

  lemma EncodesOne(c: char)
    requires !IsUnescaped(c)
    ensures EncodeURIComponent([c]) == EscapeAll(Utf8(c))
  {
    assert [c][1..] == [];
  }

  lemma EscapesOne(a: Byte)
    ensures EscapeAll([a]) == Escape(a)
  {
  }

  lemma EscapesTwo(a: Byte, b: Byte)
    ensures EscapeAll([a, b]) == Escape(a) + Escape(b)
  {
    assert [a, b][1..] == [b];
    EscapesOne(b);
  }

  lemma EscapesThree(a: Byte, b: Byte, c: Byte)
    ensures EscapeAll([a, b, c]) == Escape(a) + Escape(b) + Escape(c)
  {
    assert [a, b, c][1..] == [b, c];
    EscapesTwo(b, c);
  }
}
