/**
 * `Uri.EscapeDataString` as RFC 3986 defines it: the unreserved characters of
 * section 2.3 (ALPHA, DIGIT, "-", ".", "_", "~") are kept, every other
 * character is UTF-8 encoded and each byte written as a percent-encoded
 * triplet "%" HEXDIG HEXDIG with upper-case hex digits (section 2.1).
 * The decoder beside it is the partner the round trip is proved against.
 */
module UriEscape {
  import opened Wrappers

  type Byte = x: int | 0 <= x < 256

  /** The unreserved characters of RFC 3986 section 2.3. */
  predicate IsUnreserved(c: char) {
    ('A' <= c <= 'Z') || ('a' <= c <= 'z') || ('0' <= c <= '9')
    || c == '-' || c == '.' || c == '_' || c == '~'
  }

  /** The UTF-8 encoding of one Unicode scalar value (RFC 3629 section 3). */
  function Utf8Encode(c: char): (bs: seq<Byte>)
    ensures 1 <= |bs| <= 4
  {
    var n := c as int;
    if n < 0x80 then [n]
    else if n < 0x800 then [0xC0 + n / 0x40, 0x80 + n % 0x40]
    else if n < 0x1_0000 then [0xE0 + n / 0x1000, 0x80 + (n / 0x40) % 0x40, 0x80 + n % 0x40]
    else [0xF0 + n / 0x4_0000, 0x80 + (n / 0x1000) % 0x40, 0x80 + (n / 0x40) % 0x40, 0x80 + n % 0x40]
  }

  /** The number of bytes a UTF-8 sequence with this lead byte has; 0 for a byte that cannot lead. */
  function Utf8Length(lead: Byte): nat {
    if lead < 0x80 then 1
    else if 0xC0 <= lead < 0xE0 then 2
    else if 0xE0 <= lead < 0xF0 then 3
    else if 0xF0 <= lead < 0xF8 then 4
    else 0
  }

  predicate IsContinuation(b: Byte) {
    0x80 <= b < 0xC0
  }

  /** The code point a lead byte and its continuation bytes spell out. */
  function Utf8Value(bs: seq<Byte>): int
    requires 1 <= |bs| <= 4
  {
    if |bs| == 1 then bs[0] as int
    else if |bs| == 2 then Bits2(bs[0] as int - 0xC0, bs[1] as int - 0x80)
    else if |bs| == 3 then Bits3(bs[0] as int - 0xE0, bs[1] as int - 0x80, bs[2] as int - 0x80)
    else Bits4(bs[0] as int - 0xF0, bs[1] as int - 0x80, bs[2] as int - 0x80, bs[3] as int - 0x80)
  }

  function Bits2(a: int, b: int): int { a * 0x40 + b }
  function Bits3(a: int, b: int, c: int): int { a * 0x1000 + b * 0x40 + c }
  function Bits4(a: int, b: int, c: int, d: int): int { a * 0x4_0000 + b * 0x1000 + c * 0x40 + d }

  /** The scalar value encoded by exactly one UTF-8 sequence, if it is one. */
  function Utf8Decode(bs: seq<Byte>): Option<char> {
    if |bs| == 0 || Utf8Length(bs[0]) != |bs| then None
    else if exists i :: 1 <= i < |bs| && !IsContinuation(bs[i]) then None
    else
      var n := Utf8Value(bs);
      if 0 <= n < 0xD800 || 0xE000 <= n < 0x11_0000 then Some(n as char) else None
  }

  lemma Utf8RoundTrip(c: char)
    ensures Utf8Length(Utf8Encode(c)[0]) == |Utf8Encode(c)|
    ensures Utf8Decode(Utf8Encode(c)) == Some(c)
  {
    var bs := Utf8Encode(c);
    var n := c as int;
    assert forall i :: 1 <= i < |bs| ==> IsContinuation(bs[i]);
    if n < 0x80 {
    } else if n < 0x800 {
      Digits2(n);
    } else if n < 0x1_0000 {
      Digits3(n);
    } else {
      Digits4(n);
    }
    assert Utf8Value(bs) == n;
  }

  lemma Digits2(n: int)
    requires 0 <= n
    ensures Bits2(n / 0x40, n % 0x40) == n
  {
  }

  lemma Digits3(n: int)
    requires 0 <= n
    ensures Bits3(n / 0x1000, (n / 0x40) % 0x40, n % 0x40) == n
  {
    assert n / 0x1000 == (n / 0x40) / 0x40;
  }

  lemma Digits4(n: int)
    requires 0 <= n
    ensures Bits4(n / 0x4_0000, (n / 0x1000) % 0x40, (n / 0x40) % 0x40, n % 0x40) == n
  {
    assert n / 0x1000 == (n / 0x40) / 0x40;
    assert n / 0x4_0000 == (n / 0x1000) / 0x40;
  }

  /** The upper-case hexadecimal digit of a value below 16. */
  function HexDigit(d: nat): (c: char)
    requires d < 16
    ensures IsUnreserved(c)
  {
    if d < 10 then (48 + d) as char else (55 + d) as char
  }

  /** The value of a hexadecimal digit of either case. */
  function HexValue(c: char): Option<nat> {
    if '0' <= c <= '9' then Some(c as int - 48)
    else if 'A' <= c <= 'F' then Some(c as int - 55)
    else if 'a' <= c <= 'f' then Some(c as int - 87)
    else None
  }

  lemma HexRoundTrip(d: nat)
    requires d < 16
    ensures HexValue(HexDigit(d)) == Some(d)
  {
  }

  /** One byte as a percent-encoded triplet. */
  function PercentEncode(b: Byte): string {
    ['%', HexDigit(b / 16), HexDigit(b % 16)]
  }

  function PercentEncodeAll(bs: seq<Byte>): (s: string)
    ensures |s| == 3 * |bs|
  {
    if bs == [] then [] else PercentEncode(bs[0]) + PercentEncodeAll(bs[1..])
  }

  /** One character as `Uri.EscapeDataString` writes it. */
  function EscapeChar(c: char): string {
    if IsUnreserved(c) then [c] else PercentEncodeAll(Utf8Encode(c))
  }

  /** `Uri.EscapeDataString`. */
  function EscapeDataString(s: string): (r: string)
    ensures |r| >= |s|
  {
    if s == [] then [] else EscapeChar(s[0]) + EscapeDataString(s[1..])
  }

  /** The byte written as a percent-encoded triplet at the start of `t`. */
  function DecodeTriplet(t: string): Option<Byte> {
    if |t| < 3 || t[0] != '%' then None
    else
      var hi :- HexValue(t[1]);
      var lo :- HexValue(t[2]);
      if hi < 16 && lo < 16 then Some(16 * hi + lo) else None
  }

  /** The bytes of `n` consecutive percent-encoded triplets at the start of `t`. */
  function DecodeTriplets(t: string, n: nat): Option<seq<Byte>>
    decreases n
  {
    if n == 0 then Some([])
    else if |t| < 3 then None
    else
      var b :- DecodeTriplet(t);
      var rest :- DecodeTriplets(t[3..], n - 1);
      Some([b] + rest)
  }

  /**
   * A strict decoder of escaped text, the partner of `EscapeDataString`:
   * unreserved characters stand for themselves, percent-encoded UTF-8
   * sequences for the character they encode, and anything else is rejected.
   * (`Uri.UnescapeDataString` would instead pass malformed input through.)
   */
  function UnescapeStrict(t: string): Option<string>
    decreases |t|
  {
    if t == [] then Some([])
    else if t[0] == '%' then
      var lead :- DecodeTriplet(t);
      var n := Utf8Length(lead);
      if n == 0 || |t| < 3 * n then None
      else
        var bs :- DecodeTriplets(t, n);
        var c :- Utf8Decode(bs);
        var rest :- UnescapeStrict(t[3 * n..]);
        Some([c] + rest)
    else if IsUnreserved(t[0]) then
      var rest :- UnescapeStrict(t[1..]);
      Some([t[0]] + rest)
    else None
  }

  lemma DecodeTripletOfEncoded(b: Byte, rest: string)
    ensures DecodeTriplet(PercentEncode(b) + rest) == Some(b)
  {
    HexRoundTrip(b / 16);
    HexRoundTrip(b % 16);
  }

  lemma {:induction false} DecodeTripletsOfEncoded(bs: seq<Byte>, rest: string)
    ensures DecodeTriplets(PercentEncodeAll(bs) + rest, |bs|) == Some(bs)
    decreases |bs|
  {
    if bs != [] {
      var tail := PercentEncodeAll(bs[1..]) + rest;
      var t := PercentEncodeAll(bs) + rest;
      assert t == PercentEncode(bs[0]) + tail;
      DecodeTripletOfEncoded(bs[0], tail);
      assert t[3..] == tail;
      DecodeTripletsOfEncoded(bs[1..], rest);
      DecodeTripletsStep(t, bs[0], |bs|, bs[1..]);
      assert [bs[0]] + bs[1..] == bs;
    }
  }

  /** One step of the triplet decoder. */
  lemma DecodeTripletsStep(t: string, b: Byte, n: nat, tail: seq<Byte>)
    requires n > 0 && |t| >= 3
    requires DecodeTriplet(t) == Some(b) && DecodeTriplets(t[3..], n - 1) == Some(tail)
    ensures DecodeTriplets(t, n) == Some([b] + tail)
  {
  }

  /** One step of the decoder over a percent-encoded character. */
  lemma UnescapePercentStep(t: string, n: nat, bs: seq<Byte>, c: char)
    requires |t| >= 3 * n && n > 0 && t[0] == '%'
    requires DecodeTriplet(t).Some? && Utf8Length(DecodeTriplet(t).value) == n
    requires DecodeTriplets(t, n) == Some(bs) && Utf8Decode(bs) == Some(c)
    ensures UnescapeStrict(t) ==
      (match UnescapeStrict(t[3 * n..])
       case None => None
       case Some(r) => Some([c] + r))
  {
  }

  /** Decoding one escaped character in front of anything gives that character in front of its decoding. */
  lemma UnescapeEscapedChar(c: char, rest: string)
    ensures UnescapeStrict(EscapeChar(c) + rest) ==
      (match UnescapeStrict(rest)
       case None => None
       case Some(r) => Some([c] + r))
  {
    var t := EscapeChar(c) + rest;
    if IsUnreserved(c) {
      assert t[0] == c && t[1..] == rest;
    } else {
      UnescapeEncodedChar(c, rest);
    }
  }

  /** The percent-encoded case of `UnescapeEscapedChar`. */
  lemma UnescapeEncodedChar(c: char, rest: string)
    requires !IsUnreserved(c)
    ensures UnescapeStrict(PercentEncodeAll(Utf8Encode(c)) + rest) ==
      (match UnescapeStrict(rest)
       case None => None
       case Some(r) => Some([c] + r))
  {
    var bs := Utf8Encode(c);
    var t := PercentEncodeAll(bs) + rest;
    assert t == PercentEncode(bs[0]) + (PercentEncodeAll(bs[1..]) + rest);
    DecodeTripletOfEncoded(bs[0], PercentEncodeAll(bs[1..]) + rest);
    Utf8RoundTrip(c);
    DecodeTripletsOfEncoded(bs, rest);
    assert t[3 * |bs|..] == rest;
    UnescapePercentStep(t, |bs|, bs, c);
  }

  /** Unescaping undoes `EscapeDataString` for every string. */
  lemma {:induction false} EscapeRoundTrip(s: string)
    ensures UnescapeStrict(EscapeDataString(s)) == Some(s)
    decreases |s|
  {
    if s != [] {
      UnescapeEscapedChar(s[0], EscapeDataString(s[1..]));
      EscapeRoundTrip(s[1..]);
      assert [s[0]] + s[1..] == s;
    }
  }

  /** Every character `EscapeDataString` writes is unreserved or the percent sign. */
  lemma {:induction false} EscapeAlphabet(s: string)
    ensures forall i :: 0 <= i < |EscapeDataString(s)| ==>
      IsUnreserved(EscapeDataString(s)[i]) || EscapeDataString(s)[i] == '%'
    decreases |s|
  {
    if s != [] {
      EscapeAlphabet(s[1..]);
      if !IsUnreserved(s[0]) {
        PercentAlphabet(Utf8Encode(s[0]));
      }
    }
  }

  lemma {:induction false} PercentAlphabet(bs: seq<Byte>)
    ensures forall i :: 0 <= i < |PercentEncodeAll(bs)| ==>
      IsUnreserved(PercentEncodeAll(bs)[i]) || PercentEncodeAll(bs)[i] == '%'
    decreases |bs|
  {
    if bs != [] {
      PercentAlphabet(bs[1..]);
    }
  }

  /** Escaped text never holds the query-string delimiters. */
  lemma EscapeHasNoDelimiters(s: string)
    ensures '&' !in EscapeDataString(s) && '=' !in EscapeDataString(s)
    ensures '?' !in EscapeDataString(s) && '/' !in EscapeDataString(s)
    ensures '#' !in EscapeDataString(s)
  {
    EscapeAlphabet(s);
  }

  /** Text made of unreserved characters only is left as it is. */
  lemma {:induction false} EscapeKeepsUnreserved(s: string)
    requires forall i :: 0 <= i < |s| ==> IsUnreserved(s[i])
    ensures EscapeDataString(s) == s
    decreases |s|
  {
    if s != [] {
      EscapeKeepsUnreserved(s[1..]);
      assert [s[0]] + s[1..] == s;
    }
  }
}
