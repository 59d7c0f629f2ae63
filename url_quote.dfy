/** Text in a URL query field: UTF-8 encoding, percent-encoding as Python's
    `urllib.parse.quote` does it (`safe='/'`), and the decoding a receiving
    application applies to the field it reads. */
module UrlQuote {
  import opened Common

  type Byte = b: int | 0 <= b < 256

  // ---------------------------------------------------------------------
  // UTF-8
  // ---------------------------------------------------------------------

  /** The UTF-8 encoding of one character. */
  function Utf8Char(c: char): (r: seq<Byte>)
    ensures 1 <= |r| <= 4
  {
    var v := c as int;
    if v < 0x80 then [v]
    else if v < 0x800 then [0xC0 + v / 0x40, 0x80 + v % 0x40]
    else if v < 0x1_0000 then [0xE0 + v / 0x1000, 0x80 + v / 0x40 % 0x40, 0x80 + v % 0x40]
    else [0xF0 + v / 0x4_0000, 0x80 + v / 0x1000 % 0x40, 0x80 + v / 0x40 % 0x40, 0x80 + v % 0x40]
  }

  /** `s.encode('utf-8')`. */
  function Utf8(s: string): seq<Byte> {
    if |s| == 0 then [] else Utf8Char(s[0]) + Utf8(s[1..])
  }

  /** How many bytes a sequence starting with lead byte `b` takes; 0 when
      `b` cannot start one. */
  function SequenceLength(b: Byte): nat {
    if b < 0x80 then 1
    else if 0xC0 <= b < 0xE0 then 2
    else if 0xE0 <= b < 0xF0 then 3
    else if 0xF0 <= b < 0xF8 then 4
    else 0
  }

  predicate Continuation(b: Byte) {
    0x80 <= b < 0xC0
  }

  /** The code point `b[..n]` encodes, lead byte first. */
  function CodePoint(b: seq<Byte>, n: nat): int
    requires 1 <= n <= |b| && n <= 4
  {
    var low := b[n - 1] as int - 0x80;
    if n == 1 then b[0] as int
    else if n == 2 then (b[0] as int - 0xC0) * 0x40 + low
    else if n == 3 then (b[0] as int - 0xE0) * 0x1000 + (b[1] as int - 0x80) * 0x40 + low
    else (b[0] as int - 0xF0) * 0x4_0000 + (b[1] as int - 0x80) * 0x1000 + (b[2] as int - 0x80) * 0x40 + low
  }

  predicate IsScalar(v: int) {
    0 <= v < 0xD800 || 0xE000 <= v < 0x11_0000
  }

  function Prepend<T>(x: T, r: Option<seq<T>>): Option<seq<T>> {
    if r.Some? then Some([x] + r.value) else None
  }

  /** `b.decode('utf-8')`; `None` where `b` is not UTF-8. */
  function Utf8Decode(b: seq<Byte>): Option<string>
    decreases |b|
  {
    if |b| == 0 then Some([])
    else
      var n := SequenceLength(b[0]);
      if n == 0 || |b| < n then None
      else if n >= 2 && !Continuation(b[1]) then None
      else if n >= 3 && !Continuation(b[2]) then None
      else if n == 4 && !Continuation(b[3]) then None
      else if !IsScalar(CodePoint(b, n)) then None
      else Prepend(CodePoint(b, n) as char, Utf8Decode(b[n..]))
  }

  /** Decoding reads one character's encoding back as that character. */
  lemma DecodeChar(c: char, rest: seq<Byte>)
    ensures Utf8Decode(Utf8Char(c) + rest) == Prepend(c, Utf8Decode(rest))
  {
    var v := c as int;
    var b := Utf8Char(c) + rest;
    var n := |Utf8Char(c)|;
    assert b[n..] == rest;
    if v < 0x80 {
    } else if v < 0x800 {
      assert CodePoint(b, 2) == (v / 0x40) * 0x40 + v % 0x40 == v;
    } else if v < 0x1_0000 {
      assert (v / 0x40 % 0x40) * 0x40 + v % 0x40 == v % 0x1000;
      assert CodePoint(b, 3) == (v / 0x1000) * 0x1000 + v % 0x1000 == v;
    } else {
      assert (v / 0x40 % 0x40) * 0x40 + v % 0x40 == v % 0x1000;
      assert (v / 0x1000 % 0x40) * 0x1000 + v % 0x1000 == v % 0x4_0000;
      assert CodePoint(b, 4) == (v / 0x4_0000) * 0x4_0000 + v % 0x4_0000 == v;
    }
  }

  /** UTF-8 decoding undoes UTF-8 encoding. */
  lemma {:induction false} Utf8RoundTrip(s: string)
    ensures Utf8Decode(Utf8(s)) == Some(s)
    decreases |s|
  {
    if |s| > 0 {
      Utf8RoundTrip(s[1..]);
      DecodeChar(s[0], Utf8(s[1..]));
      assert [s[0]] + s[1..] == s;
    }
  }

  // ---------------------------------------------------------------------
  // Percent-encoding
  // ---------------------------------------------------------------------

  /** The bytes `quote` leaves as they are: ASCII letters and digits,
      `_.-~`, and the default safe character `/`. */
  predicate Unreserved(b: Byte) {
    || 'a' as int <= b <= 'z' as int || 'A' as int <= b <= 'Z' as int || '0' as int <= b <= '9' as int
    || b == '_' as int || b == '.' as int || b == '-' as int || b == '~' as int || b == '/' as int
  }

  const HexDigits: string := "0123456789ABCDEF"

  /** `%XX`, upper-case, for one byte. */
  function Escape(b: Byte): string {
    ['%', HexDigits[b / 16], HexDigits[b % 16]]
  }

  function PercentBytes(b: seq<Byte>): string {
    if |b| == 0 then []
    else (if Unreserved(b[0]) then [b[0] as char] else Escape(b[0])) + PercentBytes(b[1..])
  }

  /** `urllib.parse.quote(s)`. */
  function PercentEncode(s: string): string {
    PercentBytes(Utf8(s))
  }

  /** The value of one hexadecimal digit, either case. */
  function HexValue(c: char): Option<int> {
    if '0' <= c <= '9' then Some(c as int - '0' as int)
    else if 'A' <= c <= 'F' then Some(c as int - 'A' as int + 10)
    else if 'a' <= c <= 'f' then Some(c as int - 'a' as int + 10)
    else None
  }

  /** The bytes a percent-encoded text stands for; `None` for a `%` without
      two hexadecimal digits or a character outside ASCII. */
  function PercentDecode(t: string): Option<seq<Byte>>
    decreases |t|
  {
    if |t| == 0 then Some([])
    else if t[0] == '%' then
      if |t| < 3 then None
      else match (HexValue(t[1]), HexValue(t[2]))
        case (Some(h), Some(l)) => Prepend((h * 16 + l) as Byte, PercentDecode(t[3..]))
        case _ => None
    else if t[0] as int < 0x80 then Prepend(t[0] as int as Byte, PercentDecode(t[1..]))
    else None
  }

  /** The value of a query field starting at `t`: everything before the
      next `&`, which starts the next field. */
  function FieldValue(t: string): (r: string)
    ensures |r| <= |t| && r == t[..|r|]
    ensures '&' !in r
    ensures |r| < |t| ==> t[|r|] == '&'
  {
    if |t| == 0 || t[0] == '&' then [] else [t[0]] + FieldValue(t[1..])
  }

  /** The text an application reads from a query field starting at `t`. */
  function ReceivedText(t: string): Option<string> {
    match PercentDecode(FieldValue(t))
    case Some(b) => Utf8Decode(b)
    case None => None
  }

  /** ASCII text with no `%` and no `&`: what a query field holding it
      reads as itself. */
  predicate Plain(t: string) {
    forall i :: 0 <= i < |t| ==> t[i] as int < 0x80 && t[i] != '%' && t[i] != '&'
  }

  lemma {:induction false} PlainDecode(t: string)
    requires Plain(t)
    ensures PercentDecode(t).Some? && Utf8Decode(PercentDecode(t).value) == Some(t)
    decreases |t|
  {
    if |t| > 0 {
      PlainDecode(t[1..]);
      var rest := PercentDecode(t[1..]).value;
      var b := [t[0] as int as Byte] + rest;
      assert PercentDecode(t) == Some(b);
      assert b[1..] == rest;
      assert [t[0]] + t[1..] == t;
    }
  }

  /** A query field holding plain text is read back as that text. */
  lemma PlainText(t: string)
    requires Plain(t)
    ensures FieldValue(t) == t
    ensures ReceivedText(t) == Some(t)
  {
    PlainDecode(t);
  }

  lemma HexRoundTrip(b: Byte)
    ensures HexValue(HexDigits[b / 16]) == Some(b / 16)
    ensures HexValue(HexDigits[b % 16]) == Some(b % 16)
  {
  }

  /** Percent-decoding undoes percent-encoding. */
  lemma {:induction false} PercentRoundTripBytes(b: seq<Byte>)
    ensures PercentDecode(PercentBytes(b)) == Some(b)
    decreases |b|
  {
    if |b| > 0 {
      PercentRoundTripBytes(b[1..]);
      var head := if Unreserved(b[0]) then [b[0] as char] else Escape(b[0]);
      var t := head + PercentBytes(b[1..]);
      if Unreserved(b[0]) {
        assert t[0] == b[0] as char && t[1..] == PercentBytes(b[1..]);
      } else {
        HexRoundTrip(b[0]);
        assert t[0] == '%' && t[1] == HexDigits[b[0] / 16] && t[2] == HexDigits[b[0] % 16];
        assert t[3..] == PercentBytes(b[1..]);
      }
      assert [b[0]] + b[1..] == b;
    }
  }

  /** No `&` is left in an encoded text. */
  lemma {:induction false} NoAmpersand(b: seq<Byte>)
    ensures '&' !in PercentBytes(b)
    decreases |b|
  {
    if |b| > 0 {
      NoAmpersand(b[1..]);
      assert HexDigits[b[0] / 16] != '&' && HexDigits[b[0] % 16] != '&';
    }
  }

  /** An encoded text is one whole query field, and the application reading
      it gets back exactly the text that was encoded. */
  lemma PercentRoundTrip(s: string)
    ensures FieldValue(PercentEncode(s)) == PercentEncode(s)
    ensures ReceivedText(PercentEncode(s)) == Some(s)
  {
    var t := PercentEncode(s);
    NoAmpersand(Utf8(s));
    assert FieldValue(t) == t;
    PercentRoundTripBytes(Utf8(s));
    Utf8RoundTrip(s);
  }
}
