/**
 * Percent-encoding as done by Python's `urllib.parse.quote(term)` with its default `safe='/'`:
 * the term is encoded as UTF-8 (RFC 3629) and every byte that is neither an ASCII letter, a
 * digit, one of `_.-~` nor `/` is written as `%XX` with upper-case hexadecimal digits
 * (RFC 3986, section 2.1).
 */
module UrlQuote {

  import opened Basics

  type Byte = x: int | 0 <= x < 256

  // ---------------------------------------------------------------------------------------------
  // UTF-8

  /** The UTF-8 encoding of one Unicode scalar value. */
  function Utf8Char(c: char): (bs: seq<Byte>)
    ensures 1 <= |bs| <= 4
    ensures |bs| == 1 <==> c as int < 0x80
    ensures |bs| == 1 ==> bs[0] == c as int
  {
    var n := c as int;
    if n < 0x80 then [n]
    else if n < 0x800 then [0xC0 + n / 0x40, 0x80 + n % 0x40]
    else if n < 0x1_0000 then [0xE0 + n / 0x1000, 0x80 + (n / 0x40) % 0x40, 0x80 + n % 0x40]
    else [0xF0 + n / 0x4_0000, 0x80 + (n / 0x1000) % 0x40, 0x80 + (n / 0x40) % 0x40, 0x80 + n % 0x40]
  }

  /** The UTF-8 encoding of a string, character by character. */
  function Utf8(s: string): (bs: seq<Byte>)
    ensures |bs| >= |s|
  {
    if s == [] then [] else Utf8Char(s[0]) + Utf8(s[1..])
  }

  /** The number of bytes of a sequence announced by its lead byte; 0 for a byte that cannot lead. */
  function SequenceLength(b: Byte): nat {
    if b < 0x80 then 1
    else if 0xC0 <= b < 0xE0 then 2
    else if 0xE0 <= b < 0xF0 then 3
    else if 0xF0 <= b < 0xF8 then 4
    else 0
  }

  /** The code point carried by one encoded sequence (payload bits of the lead and continuation bytes). */
  function CodePoint(bs: seq<Byte>): int
    requires 1 <= |bs| <= 4
  {
    var b: seq<int> := bs;
    if |b| == 1 then b[0]
    else if |b| == 2 then (b[0] - 0xC0) * 0x40 + (b[1] - 0x80)
    else if |b| == 3 then (b[0] - 0xE0) * 0x1000 + (b[1] - 0x80) * 0x40 + (b[2] - 0x80)
    else (b[0] - 0xF0) * 0x4_0000 + (b[1] - 0x80) * 0x1000 + (b[2] - 0x80) * 0x40 + (b[3] - 0x80)
  }

  predicate IsScalarValue(n: int) {
    (0 <= n < 0xD800) || (0xE000 <= n < 0x11_0000)
  }

  /** A lenient UTF-8 decoder: `None` when a lead byte, a length or a code point is out of range. */
  function DecodeUtf8(bs: seq<Byte>): Option<string>
    decreases |bs|
  {
    if bs == [] then Some([])
    else
      var k := SequenceLength(bs[0]);
      if k == 0 || |bs| < k then None
      else
        var n := CodePoint(bs[..k]);
        if !IsScalarValue(n) then None
        else match DecodeUtf8(bs[k..])
          case None => None
          case Some(rest) => Some([n as char] + rest)
  }

  /** Decoding the encoding of one character gives that character back, and reads exactly its bytes. */
  lemma Utf8CharDecodes(c: char)
    ensures SequenceLength(Utf8Char(c)[0]) == |Utf8Char(c)|
    ensures CodePoint(Utf8Char(c)) == c as int
  {
    var n := c as int;
    if 0x80 <= n < 0x800 {
      assert n == (n / 0x40) * 0x40 + n % 0x40;
    } else if 0x800 <= n < 0x1_0000 {
      var q := n / 0x40;
      assert n == q * 0x40 + n % 0x40;
      assert q == (q / 0x40) * 0x40 + q % 0x40;
      assert q / 0x40 == n / 0x1000;
    } else if 0x1_0000 <= n {
      var q := n / 0x40;
      var r := q / 0x40;
      assert n == q * 0x40 + n % 0x40;
      assert q == r * 0x40 + q % 0x40;
      assert r == (r / 0x40) * 0x40 + r % 0x40;
      assert r == n / 0x1000;
      assert r / 0x40 == n / 0x4_0000;
    }
  }

  /** UTF-8 decoding inverts UTF-8 encoding. */
  lemma {:induction false} Utf8RoundTrip(s: string)
    ensures DecodeUtf8(Utf8(s)) == Some(s)
  {
    if s != [] {
      var head, tail := Utf8Char(s[0]), Utf8(s[1..]);
      Utf8CharDecodes(s[0]);
      assert Utf8(s) == head + tail;
      assert (head + tail)[..|head|] == head;
      assert (head + tail)[|head|..] == tail;
      Utf8RoundTrip(s[1..]);
      assert [s[0]] + s[1..] == s;
    }
  }

  // ---------------------------------------------------------------------------------------------
  // Percent-encoding

  /** The bytes `quote` leaves as they are: ASCII letters, digits, `_`, `.`, `-`, `~` and `/`. */
  predicate IsSafeByte(b: int) {
    ('A' as int <= b <= 'Z' as int) || ('a' as int <= b <= 'z' as int) || ('0' as int <= b <= '9' as int)
    || b == '_' as int || b == '.' as int || b == '-' as int || b == '~' as int || b == '/' as int
  }

  function HexDigit(d: int): (c: char)
    requires 0 <= d < 16
  {
    if d < 10 then ('0' as int + d) as char else ('A' as int + d - 10) as char
  }

  /** The value of a hexadecimal digit, upper or lower case, or `None`. */
  function HexValue(c: char): (r: Option<int>)
    ensures r.Some? ==> 0 <= r.value < 16
  {
    if '0' <= c <= '9' then Some(c as int - '0' as int)
    else if 'A' <= c <= 'F' then Some(c as int - 'A' as int + 10)
    else if 'a' <= c <= 'f' then Some(c as int - 'a' as int + 10)
    else None
  }

  function EncodeByte(b: Byte): (r: string)
    ensures |r| == 1 || |r| == 3
  {
    if IsSafeByte(b) then [b as char] else ['%', HexDigit(b / 16), HexDigit(b % 16)]
  }

  function PercentEncode(bs: seq<Byte>): string {
    if bs == [] then [] else EncodeByte(bs[0]) + PercentEncode(bs[1..])
  }

  /** `urllib.parse.quote(s)`. */
  function Quote(s: string): string {
    PercentEncode(Utf8(s))
  }

  /**
   * Percent-decoding to bytes: `%XX` becomes the byte `XX`, any other character its UTF-8
   * bytes (the way `urllib.parse.unquote` treats the text around escapes).
   */
  function PercentDecode(s: string): seq<Byte>
    decreases |s|
  {
    if s == [] then []
    else if s[0] == '%' && |s| >= 3 && HexValue(s[1]).Some? && HexValue(s[2]).Some? then
      [HexValue(s[1]).value * 16 + HexValue(s[2]).value] + PercentDecode(s[3..])
    else Utf8Char(s[0]) + PercentDecode(s[1..])
  }

  /**
   * A strict inverse of `Quote`, used only to state the round trip: percent-decode, then decode
   * the bytes as UTF-8, with `None` where they are not UTF-8. (Python's `urllib.parse.unquote`
   * replaces such bytes instead and never fails; the program itself never unquotes.)
   */
  function Unquote(s: string): Option<string> {
    DecodeUtf8(PercentDecode(s))
  }

  /** The characters `quote` can produce: safe characters, `%` and upper-case hexadecimal digits. */
  predicate IsQuotedChar(c: char) {
    IsSafeByte(c as int) || c == '%'
  }

  lemma {:induction false} PercentDecodeEncode(bs: seq<Byte>)
    ensures PercentDecode(PercentEncode(bs)) == bs
  {
    if bs != [] {
      var b := bs[0];
      var head, tail := EncodeByte(b), PercentEncode(bs[1..]);
      assert PercentEncode(bs) == head + tail;
      var s := head + tail;
      if IsSafeByte(b) {
        assert s[0] == b as char && s[1..] == tail;
      } else {
        assert s[0] == '%' && s[3..] == tail;
        assert HexValue(s[1]) == Some(b / 16);
        assert HexValue(s[2]) == Some(b % 16);
      }
      PercentDecodeEncode(bs[1..]);
      assert [b] + bs[1..] == bs;
    }
  }

  /** `unquote(quote(s)) == s` for every string. */
  lemma UnquoteQuote(s: string)
    ensures Unquote(Quote(s)) == Some(s)
  {
    PercentDecodeEncode(Utf8(s));
    Utf8RoundTrip(s);
  }

  lemma {:induction false} PercentEncodeIsQuoted(bs: seq<Byte>)
    ensures forall i :: 0 <= i < |PercentEncode(bs)| ==> IsQuotedChar(PercentEncode(bs)[i])
  {
    if bs != [] {
      PercentEncodeIsQuoted(bs[1..]);
      var head, tail := EncodeByte(bs[0]), PercentEncode(bs[1..]);
      assert PercentEncode(bs) == head + tail;
      forall i | 0 <= i < |head + tail| ensures IsQuotedChar((head + tail)[i]) {
        if i >= |head| { assert (head + tail)[i] == tail[i - |head|]; }
      }
    }
  }

  /**
   * A quoted term holds no space and no double quote, so it can neither break the `" AND "`
   * joining of terms nor end the `"…"` phrase of a search expression early.
   */
  lemma QuoteIsUrlSafe(s: string)
    ensures forall i :: 0 <= i < |Quote(s)| ==> IsQuotedChar(Quote(s)[i])
    ensures forall i :: 0 <= i < |Quote(s)| ==> Quote(s)[i] != ' ' && Quote(s)[i] != '"'
  {
    PercentEncodeIsQuoted(Utf8(s));
  }

  lemma {:induction false} Utf8Append(a: string, b: string)
    ensures Utf8(a + b) == Utf8(a) + Utf8(b)
  {
    if a != [] {
      assert (a + b)[1..] == a[1..] + b;
      Utf8Append(a[1..], b);
    } else {
      assert a + b == b;
    }
  }

  lemma {:induction false} PercentEncodeAppend(a: seq<Byte>, b: seq<Byte>)
    ensures PercentEncode(a + b) == PercentEncode(a) + PercentEncode(b)
  {
    if a != [] {
      assert (a + b)[1..] == a[1..] + b;
      PercentEncodeAppend(a[1..], b);
    } else {
      assert a + b == b;
    }
  }

  /** Quoting works character by character: the quote of a concatenation is the concatenation of the quotes. */
  lemma QuoteAppend(a: string, b: string)
    ensures Quote(a + b) == Quote(a) + Quote(b)
  {
    Utf8Append(a, b);
    PercentEncodeAppend(Utf8(a), Utf8(b));
  }

  /** A term made only of characters `quote` leaves as they are. */
  predicate AllSafe(s: string) {
    forall i :: 0 <= i < |s| ==> IsSafeByte(s[i] as int)
  }

  /** A term made only of safe characters is left unchanged. */
  lemma {:induction false} QuoteSafeIdentity(s: string)
    requires AllSafe(s)
    ensures Quote(s) == s
  {
    if s != [] {
      QuoteSafeIdentity(s[1..]);
      assert Utf8(s) == [s[0] as int] + Utf8(s[1..]);
      assert PercentEncode(Utf8(s)) == [s[0]] + PercentEncode(Utf8(s[1..]));
      assert [s[0]] + s[1..] == s;
    }
  }
}
