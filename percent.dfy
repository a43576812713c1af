/** Percent-encoding (section 2.1 of RFC 3986) as two JavaScript encoders perform it:
    `encodeURIComponent`, and the application/x-www-form-urlencoded serializer that
    `URLSearchParams.toString()` uses. Both percent-encode the UTF-8 bytes of a
    character with upper-case hexadecimal digits. */
module Percent {
  import opened Text

  type byte = b: int | 0 <= b < 256

  /** The UTF-8 encoding of one Unicode scalar value. */
  function Utf8(c: char): (r: seq<byte>)
    ensures 1 <= |r| <= 4
    ensures |r| == 1 <==> (c as int) < 0x80
    ensures |r| == 1 ==> r[0] == c as int
  {
    var cp := c as int;
    if cp < 0x80 then [cp]
    else if cp < 0x800 then [0xC0 + cp / 64, 0x80 + cp % 64]
    else if cp < 0x10000 then [0xE0 + cp / 4096, 0x80 + (cp / 64) % 64, 0x80 + cp % 64]
    else [0xF0 + cp / 262144, 0x80 + (cp / 4096) % 64, 0x80 + (cp / 64) % 64, 0x80 + cp % 64]
  }

  /** The UTF-8 encoding of a string. */
  function Utf8String(s: string): seq<byte> {
    if |s| == 0 then [] else Utf8(s[0]) + Utf8String(s[1..])
  }

  predicate IsHexUpper(c: char) { '0' <= c <= '9' || 'A' <= c <= 'F' }

  function HexDigit(n: nat): (c: char)
    requires n < 16
    ensures IsHexUpper(c)
  {
    if n < 10 then (('0' as int) + n) as char else (('A' as int) + n - 10) as char
  }

  function HexValue(c: char): (n: nat)
    requires IsHexUpper(c)
    ensures n < 16 && HexDigit(n) == c
  {
    if c <= '9' then (c as int) - ('0' as int) else 10 + (c as int) - ('A' as int)
  }

  /** `%XY` for each byte. */
  function PercentBytes(bs: seq<byte>): (r: string)
    ensures |r| == 3 * |bs|
    ensures forall k :: 0 <= k < |r| ==> r[k] == '%' || IsHexUpper(r[k])
  {
    if |bs| == 0 then []
    else ['%', HexDigit(bs[0] / 16), HexDigit(bs[0] % 16)] + PercentBytes(bs[1..])
  }

  predicate IsAsciiAlnum(c: char) { 'A' <= c <= 'Z' || 'a' <= c <= 'z' || '0' <= c <= '9' }

  /** The characters `encodeURIComponent` leaves as they are. */
  predicate UriComponentSafe(c: char) {
    IsAsciiAlnum(c) || c == '-' || c == '_' || c == '.' || c == '!' || c == '~'
    || c == '*' || c == '\'' || c == '(' || c == ')'
  }

  predicate UriComponentText(r: string) {
    forall k :: 0 <= k < |r| ==> UriComponentSafe(r[k]) || r[k] == '%'
  }

  /** `encodeURIComponent(s)`. */
  function EncodeURIComponent(s: string): (r: string)
    ensures UriComponentText(r)
  {
    if |s| == 0 then ""
    else
      var head := if UriComponentSafe(s[0]) then [s[0]] else PercentBytes(Utf8(s[0]));
      head + EncodeURIComponent(s[1..])
  }

  /** No RFC 3986 delimiter that would end the userinfo, host or path part of a URL
      survives `encodeURIComponent`. */
  lemma EncodedHasNoDelimiter(s: string)
    ensures ':' !in EncodeURIComponent(s) && '@' !in EncodeURIComponent(s)
    ensures '/' !in EncodeURIComponent(s) && '?' !in EncodeURIComponent(s)
    ensures '#' !in EncodeURIComponent(s)
  {
    var r := EncodeURIComponent(s);
    assert UriComponentText(r);
  }

  /** Percent-decoding to bytes: `%XY` is one byte, any other character its own code. */
  function DecodeBytes(r: string): seq<int>
    decreases |r|
  {
    if |r| == 0 then []
    else if |r| >= 3 && r[0] == '%' && IsHexUpper(r[1]) && IsHexUpper(r[2]) then
      [16 * HexValue(r[1]) + HexValue(r[2])] + DecodeBytes(r[3..])
    else [r[0] as int] + DecodeBytes(r[1..])
  }

  lemma {:induction false} DecodePercentBytes(bs: seq<byte>, rest: string)
    ensures DecodeBytes(PercentBytes(bs) + rest) == bs + DecodeBytes(rest)
  {
    if |bs| > 0 {
      var t := PercentBytes(bs[1..]) + rest;
      calc {
        DecodeBytes(PercentBytes(bs) + rest);
        { assert PercentBytes(bs) + rest == ['%', HexDigit(bs[0] / 16), HexDigit(bs[0] % 16)] + t; }
        DecodeBytes(['%', HexDigit(bs[0] / 16), HexDigit(bs[0] % 16)] + t);
        { DecodeTriple(bs[0], t); }
        [bs[0]] + DecodeBytes(t);
        { DecodePercentBytes(bs[1..], rest); }
        [bs[0]] + (bs[1..] + DecodeBytes(rest));
        { assert [bs[0]] + bs[1..] == bs; }
        bs + DecodeBytes(rest);
      }
    } else {
      assert PercentBytes(bs) + rest == rest;
    }
  }

  /** One `%XY` triple decodes to its byte. */
  lemma DecodeTriple(b: byte, t: string)
    ensures DecodeBytes(['%', HexDigit(b / 16), HexDigit(b % 16)] + t) == [b] + DecodeBytes(t)
  {
    var x := ['%', HexDigit(b / 16), HexDigit(b % 16)] + t;
    assert x[0] == '%' && x[1] == HexDigit(b / 16) && x[2] == HexDigit(b % 16);
    assert x[3..] == t;
    assert HexValue(x[1]) == b / 16;
    assert HexValue(x[2]) == b % 16;
  }

  /** Decoding what `encodeURIComponent` produced gives back the UTF-8 bytes of the input:
      the password is carried into the URL without loss. */
  lemma {:induction false} EncodeURIComponentRoundTrip(s: string)
    ensures DecodeBytes(EncodeURIComponent(s)) == Utf8String(s)
  {
    if |s| > 0 {
      var rest := EncodeURIComponent(s[1..]);
      EncodeURIComponentRoundTrip(s[1..]);
      if UriComponentSafe(s[0]) {
        assert EncodeURIComponent(s) == [s[0]] + rest;
        assert ([s[0]] + rest)[1..] == rest;
      } else {
        DecodePercentBytes(Utf8(s[0]), rest);
      }
    }
  }

  /** The characters the form-urlencoded serializer leaves as they are. */
  predicate FormSafe(c: char) {
    IsAsciiAlnum(c) || c == '*' || c == '-' || c == '.' || c == '_'
  }

  /** application/x-www-form-urlencoded byte serialization of one name or value:
      a space becomes `+`, safe characters stay, the rest is percent-encoded. */
  function FormEncode(s: string): (r: string)
    ensures forall k :: 0 <= k < |r| ==> FormSafe(r[k]) || r[k] == '%' || r[k] == '+'
  {
    if |s| == 0 then ""
    else
      var head := if s[0] == ' ' then "+"
                  else if FormSafe(s[0]) then [s[0]]
                  else PercentBytes(Utf8(s[0]));
      head + FormEncode(s[1..])
  }

  /** `URLSearchParams.toString()`: `name=value` pairs joined by `&`. */
  function FormSerialize(pairs: seq<(string, string)>): (r: string)
    ensures |pairs| == 0 <==> r == ""
  {
    if |pairs| == 0 then ""
    else
      var first := FormEncode(pairs[0].0) + "=" + FormEncode(pairs[0].1);
      if |pairs| == 1 then first else first + "&" + FormSerialize(pairs[1..])
  }
}
