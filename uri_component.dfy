/**
 * ECMA-262's encodeURIComponent and decodeURIComponent: percent-encoding
 * (section 2.1 of RFC 3986) of each character's UTF-8 bytes, except for the
 * characters A-Z a-z 0-9 - _ . ! ~ * ' ( ), which pass through. Characters
 * are Unicode scalar values, so the lone-surrogate URIError of the encoder
 * cannot arise.
 */
module UriComponent {
  import opened Wrappers

  type Byte = b: int | 0 <= b < 256

  /** The characters encodeURIComponent leaves as they are. */
  predicate Unescaped(c: char) {
    || ('A' <= c <= 'Z') || ('a' <= c <= 'z') || ('0' <= c <= '9')
    || c == '-' || c == '_' || c == '.' || c == '!' || c == '~' || c == '*' || c == '\'' || c == '(' || c == ')'
  }

  /** The upper-case hexadecimal digit of 0 <= n < 16. */
  function HexDigit(n: int): char
    requires 0 <= n < 16
  {
    if n < 10 then ('0' as int + n) as char else ('A' as int + n - 10) as char
  }

  /** The value of a hexadecimal digit of either case. */
  function HexValue(c: char): Option<int> {
    if '0' <= c <= '9' then Some(c as int - '0' as int)
    else if 'A' <= c <= 'F' then Some(c as int - 'A' as int + 10)
    else if 'a' <= c <= 'f' then Some(c as int - 'a' as int + 10)
    else None
  }

  predicate IsUpperHexDigit(c: char) {
    ('0' <= c <= '9') || ('A' <= c <= 'F')
  }

  lemma HexRoundTrip(n: int)
    requires 0 <= n < 16
    ensures HexValue(HexDigit(n)) == Some(n) && IsUpperHexDigit(HexDigit(n))
  {
  }

  /** The UTF-8 bytes of a scalar value. */
  function Utf8(c: char): (bs: seq<Byte>)
    ensures 1 <= |bs| <= 4
  {
    var cp := c as int;
    var q1, r1 := cp / 64, cp % 64;
    var q2, r2 := q1 / 64, q1 % 64;
    var q3, r3 := q2 / 64, q2 % 64;
    if cp < 0x80 then [cp]
    else if cp < 0x800 then [0xC0 + q1, 0x80 + r1]
    else if cp < 0x10000 then [0xE0 + q2, 0x80 + r2, 0x80 + r1]
    else [0xF0 + q3, 0x80 + r3, 0x80 + r2, 0x80 + r1]
  }

  predicate IsContinuation(b: Byte) {
    0x80 <= b < 0xC0
  }

  /** The number of bytes of a UTF-8 sequence with this leading byte, 0 if it cannot lead. */
  function SequenceLength(b: Byte): nat {
    if b < 0x80 then 1
    else if b < 0xC0 then 0
    else if b < 0xE0 then 2
    else if b < 0xF0 then 3
    else if b < 0xF8 then 4
    else 0
  }

  /**
   * The scalar value a byte sequence encodes, or None when it is not the
   * shortest UTF-8 encoding of a scalar value (overlong forms, surrogates
   * and values above U+10FFFF are refused).
   */
  function Utf8Decode(bs: seq<Byte>): Option<char> {
    if |bs| == 1 && bs[0] < 0x80 then Some(bs[0] as char)
    else if |bs| == 2 && 0xC0 <= bs[0] < 0xE0 && IsContinuation(bs[1]) then
      var cp := (bs[0] as int - 0xC0) * 64 + (bs[1] as int - 0x80);
      if cp >= 0x80 then Some(cp as char) else None
    else if |bs| == 3 && 0xE0 <= bs[0] < 0xF0 && IsContinuation(bs[1]) && IsContinuation(bs[2]) then
      var cp := ((bs[0] as int - 0xE0) * 64 + (bs[1] as int - 0x80)) * 64 + (bs[2] as int - 0x80);
      if cp >= 0x800 && !(0xD800 <= cp < 0xE000) then Some(cp as char) else None
    else if |bs| == 4 && 0xF0 <= bs[0] < 0xF8 && IsContinuation(bs[1]) && IsContinuation(bs[2]) && IsContinuation(bs[3]) then
      var cp := (((bs[0] as int - 0xF0) * 64 + (bs[1] as int - 0x80)) * 64 + (bs[2] as int - 0x80)) * 64 + (bs[3] as int - 0x80);
      if 0x10000 <= cp <= 0x10FFFF then Some(cp as char) else None
    else None
  }

  /** Decoding the UTF-8 bytes of a character gives the character back. */
  lemma Utf8RoundTrip(c: char)
    ensures SequenceLength(Utf8(c)[0]) == |Utf8(c)|
    ensures forall k :: 1 <= k < |Utf8(c)| ==> IsContinuation(Utf8(c)[k])
    ensures Utf8Decode(Utf8(c)) == Some(c)
  {
    var cp := c as int;
    var q1, r1 := cp / 64, cp % 64;
    var q2, r2 := q1 / 64, q1 % 64;
    var q3, r3 := q2 / 64, q2 % 64;
    assert cp == q1 * 64 + r1;
    assert q1 == q2 * 64 + r2;
    assert q2 == q3 * 64 + r3;
    if cp < 0x80 {
    } else if cp < 0x800 {
      assert q1 < 32;
    } else if cp < 0x10000 {
      assert q2 < 16;
      assert (q2 * 64 + r2) * 64 + r1 == cp;
    } else {
      assert q3 < 5;
      assert ((q3 * 64 + r3) * 64 + r2) * 64 + r1 == cp;
    }
  }

  /** `%XY`: one byte written as a percent sign and two upper-case hexadecimal digits. */
  function PercentByte(b: Byte): string {
    ['%', HexDigit(b / 16), HexDigit(b % 16)]
  }

  function PercentBytes(bs: seq<Byte>): (s: string)
    ensures |s| == 3 * |bs|
  {
    if bs == [] then [] else PercentByte(bs[0]) + PercentBytes(bs[1..])
  }

  /** One character as encodeURIComponent writes it. */
  function EncodeChar(c: char): string {
    if Unescaped(c) then [c] else PercentBytes(Utf8(c))
  }

  /** encodeURIComponent. */
  function Encode(s: string): string {
    if s == [] then [] else EncodeChar(s[0]) + Encode(s[1..])
  }

  /** The byte written as `%XY` at position k of `s`, if there is one. */
  function ByteAt(s: string, k: nat): Option<Byte> {
    if k + 3 <= |s| && s[k] == '%' && HexValue(s[k + 1]).Some? && HexValue(s[k + 2]).Some? then
      Some(HexValue(s[k + 1]).value * 16 + HexValue(s[k + 2]).value)
    else None
  }

  /** The n escaped bytes written from position k of `s` on, if all are there. */
  function BytesAt(s: string, k: nat, n: nat): Option<seq<Byte>>
    decreases n
  {
    if n == 0 then Some([])
    else match ByteAt(s, k)
      case None => None
      case Some(b) =>
        match BytesAt(s, k + 3, n - 1)
        case None => None
        case Some(rest) => Some([b] + rest)
  }

  /**
   * One escape sequence at the head of `s` (which starts with '%'): its
   * character and how many characters of `s` it spans; None where
   * decodeURIComponent throws URIError.
   */
  function DecodeEscape(s: string): (r: Option<(char, nat)>)
    ensures r.Some? ==> 3 <= r.value.1 <= |s|
  {
    match ByteAt(s, 0)
    case None => None
    case Some(b0) =>
      var n := SequenceLength(b0);
      if n == 0 || |s| < 3 * n then None
      else match BytesAt(s, 0, n)
        case None => None
        case Some(bs) =>
          match Utf8Decode(bs)
          case None => None
          case Some(c) => Some((c, 3 * n))
  }

  /** decodeURIComponent: None where it throws URIError. */
  function Decode(s: string): Option<string>
    decreases |s|
  {
    if s == [] then Some([])
    else if s[0] != '%' then
      match Decode(s[1..])
      case None => None
      case Some(t) => Some([s[0]] + t)
    else
      match DecodeEscape(s)
      case None => None
      case Some(e) =>
        match Decode(s[e.1..])
        case None => None
        case Some(t) => Some([e.0] + t)
  }

  // ---- Round trip ----

  lemma {:induction false} BytesAtPercent(bs: seq<Byte>, rest: string)
    ensures BytesAt(PercentBytes(bs) + rest, 0, |bs|) == Some(bs)
    decreases |bs|
  {
    if bs != [] {
      var s := PercentBytes(bs) + rest;
      var b := bs[0];
      HexRoundTrip(b / 16);
      HexRoundTrip(b % 16);
      assert s[..3] == PercentByte(b);
      assert ByteAt(s, 0) == Some(b);
      assert s[3..] == PercentBytes(bs[1..]) + rest;
      BytesAtPercent(bs[1..], rest);
      BytesAtShift(s, 3, |bs| - 1);
      assert bs == [b] + bs[1..];
    }
  }

  /** Reading escaped bytes does not depend on what precedes the position read. */
  lemma {:induction false} BytesAtShift(s: string, k: nat, n: nat)
    requires k <= |s|
    ensures BytesAt(s, k, n) == BytesAt(s[k..], 0, n)
    decreases n
  {
    if n > 0 {
      assert ByteAt(s, k) == ByteAt(s[k..], 0);
      if k + 3 <= |s| {
        BytesAtShift(s, k + 3, n - 1);
        BytesAtShift(s[k..], 3, n - 1);
        assert s[k..][3..] == s[k + 3..];
      }
    }
  }

  /** The escape sequence of a character decodes back to it. */
  lemma DecodeEscapeOfChar(c: char, rest: string)
    requires !Unescaped(c)
    ensures DecodeEscape(EncodeChar(c) + rest) == Some((c, |EncodeChar(c)|))
  {
    var bs := Utf8(c);
    var s := EncodeChar(c) + rest;
    Utf8RoundTrip(c);
    BytesAtPercent(bs, rest);
    var b0 := bs[0];
    HexRoundTrip(b0 / 16);
    HexRoundTrip(b0 % 16);
    assert s[..3] == PercentByte(b0);
    assert ByteAt(s, 0) == Some(b0);
  }

  /** Decoding a character's encoding followed by more text decodes the character, then the text. */
  lemma DecodeEncodedChar(c: char, rest: string)
    ensures Decode(EncodeChar(c) + rest) ==
      match Decode(rest) case None => None case Some(t) => Some([c] + t)
  {
    var s := EncodeChar(c) + rest;
    if Unescaped(c) {
      assert s[1..] == rest;
    } else {
      DecodeEscapeOfChar(c, rest);
      var bs := Utf8(c);
      assert s[0] == '%';
      assert s[|EncodeChar(c)|..] == rest;
    }
  }

  /** decodeURIComponent undoes encodeURIComponent. */
  lemma {:induction false} DecodeEncode(s: string)
    ensures Decode(Encode(s)) == Some(s)
  {
    if s != [] {
      DecodeEncode(s[1..]);
      DecodeEncodedChar(s[0], Encode(s[1..]));
      assert [s[0]] + s[1..] == s;
    }
  }

  // ---- The output alphabet ----

  /** Every character encodeURIComponent writes: an unescaped one, '%' or an upper-case hex digit. */
  predicate EncodedChar(c: char) {
    Unescaped(c) || c == '%' || IsUpperHexDigit(c)
  }

  lemma {:induction false} PercentBytesAlphabet(bs: seq<Byte>)
    ensures forall i :: 0 <= i < |PercentBytes(bs)| ==> EncodedChar(PercentBytes(bs)[i])
    decreases |bs|
  {
    if bs != [] {
      HexRoundTrip(bs[0] / 16);
      HexRoundTrip(bs[0] % 16);
      PercentBytesAlphabet(bs[1..]);
      var p, q := PercentByte(bs[0]), PercentBytes(bs[1..]);
      assert forall i :: 0 <= i < |p + q| ==> (p + q)[i] == if i < |p| then p[i] else q[i - |p|];
    }
  }

  /** The encoding uses only unescaped characters, '%' and upper-case hex digits. */
  lemma {:induction false} EncodeAlphabet(s: string)
    ensures forall i :: 0 <= i < |Encode(s)| ==> EncodedChar(Encode(s)[i])
  {
    if s != [] {
      EncodeAlphabet(s[1..]);
      if !Unescaped(s[0]) {
        PercentBytesAlphabet(Utf8(s[0]));
      }
      var p, q := EncodeChar(s[0]), Encode(s[1..]);
      assert forall i :: 0 <= i < |p + q| ==> (p + q)[i] == if i < |p| then p[i] else q[i - |p|];
    }
  }

  /**
   * So an encoded component holds none of the query delimiters `&`, `=`,
   * `?`, `#`, nor `+` (which form decoders read as a space).
   */
  lemma EncodeHasNoDelimiters(s: string)
    ensures '&' !in Encode(s) && '=' !in Encode(s) && '?' !in Encode(s) && '#' !in Encode(s) && '+' !in Encode(s)
  {
    EncodeAlphabet(s);
  }
}
