/**
 * The literal encodings that the request builders splice into contract text:
 * hexadecimal decoding as done by Node's `Buffer.from(s, 'hex')`, base64 as in
 * section 4 of RFC 4648 (with its decoder, which is what ErgoScript's
 * `fromBase64` does), and the decimal form JavaScript gives an integer.
 */
module Encoding {
  import opened Wrappers

  type byte = b: int | 0 <= b < 256

  // ---------------------------------------------------------------- hex

  predicate IsHexDigit(c: char) {
    ('0' <= c <= '9') || ('a' <= c <= 'f') || ('A' <= c <= 'F')
  }

  function HexValue(c: char): (v: int)
    requires IsHexDigit(c)
    ensures 0 <= v < 16
  {
    if '0' <= c <= '9' then c as int - '0' as int
    else if 'a' <= c <= 'f' then c as int - 'a' as int + 10
    else c as int - 'A' as int + 10
  }

  /** A well-formed identifier: an even number of hex digits. */
  predicate IsHexString(s: string) {
    |s| % 2 == 0 && forall i :: 0 <= i < |s| ==> IsHexDigit(s[i])
  }

  /**
   * `Buffer.from(s, 'hex')`: one byte per pair of hex digits, stopping at the
   * first pair that is not two hex digits; a trailing odd digit is dropped.
   */
  function HexToBytes(s: string): (r: seq<byte>)
    ensures |r| <= |s| / 2
    decreases |s|
  {
    if |s| >= 2 && IsHexDigit(s[0]) && IsHexDigit(s[1]) then
      [HexValue(s[0]) * 16 + HexValue(s[1])] + HexToBytes(s[2..])
    else
      []
  }

  /** A well-formed identifier decodes to exactly half as many bytes as it has digits. */
  lemma {:induction false} HexToBytesLength(s: string)
    requires IsHexString(s)
    ensures |HexToBytes(s)| == |s| / 2
    decreases |s|
  {
    if |s| >= 2 {
      assert IsHexString(s[2..]) by {
        forall i | 0 <= i < |s[2..]| ensures IsHexDigit(s[2..][i]) {
          assert s[2..][i] == s[i + 2];
        }
      }
      HexToBytesLength(s[2..]);
    }
  }

  // ---------------------------------------------------------------- base64

  /** The base64 alphabet of section 4 of RFC 4648. */
  function Base64Char(i: int): (c: char)
    requires 0 <= i < 64
  {
    if i < 26 then ('A' as int + i) as char
    else if i < 52 then ('a' as int + i - 26) as char
    else if i < 62 then ('0' as int + i - 52) as char
    else if i == 62 then '+'
    else '/'
  }

  predicate IsBase64Char(c: char) {
    ('A' <= c <= 'Z') || ('a' <= c <= 'z') || ('0' <= c <= '9') || c == '+' || c == '/'
  }

  function Base64Value(c: char): (v: int)
    requires IsBase64Char(c)
    ensures 0 <= v < 64
  {
    if 'A' <= c <= 'Z' then c as int - 'A' as int
    else if 'a' <= c <= 'z' then c as int - 'a' as int + 26
    else if '0' <= c <= '9' then c as int - '0' as int + 52
    else if c == '+' then 62
    else 63
  }

  lemma Base64CharValue(i: int)
    requires 0 <= i < 64
    ensures IsBase64Char(Base64Char(i)) && Base64Value(Base64Char(i)) == i
  {
  }

  /** The four characters for three bytes. */
  function EncodeThree(x: byte, y: byte, z: byte): (s: string)
    ensures |s| == 4 && forall i :: 0 <= i < |s| ==> IsBase64Char(s[i])
  {
    Base64CharValue(x / 4);
    Base64CharValue(x % 4 * 16 + y / 16);
    Base64CharValue(y % 16 * 4 + z / 64);
    Base64CharValue(z % 64);
    [Base64Char(x / 4), Base64Char(x % 4 * 16 + y / 16), Base64Char(y % 16 * 4 + z / 64), Base64Char(z % 64)]
  }

  /** The last two bytes: three characters and one `=`. */
  function EncodeTwo(x: byte, y: byte): (s: string)
    ensures |s| == 4 && forall i :: 0 <= i < |s| ==> IsBase64Char(s[i]) || s[i] == '='
  {
    Base64CharValue(x / 4);
    Base64CharValue(x % 4 * 16 + y / 16);
    Base64CharValue(y % 16 * 4);
    [Base64Char(x / 4), Base64Char(x % 4 * 16 + y / 16), Base64Char(y % 16 * 4), '=']
  }

  /** The last byte: two characters and `==`. */
  function EncodeOne(x: byte): (s: string)
    ensures |s| == 4 && forall i :: 0 <= i < |s| ==> IsBase64Char(s[i]) || s[i] == '='
  {
    Base64CharValue(x / 4);
    Base64CharValue(x % 4 * 16);
    [Base64Char(x / 4), Base64Char(x % 4 * 16), '=', '=']
  }

  /** `Buffer.from(bytes).toString('base64')`, padded with `=`. */
  function Base64Encode(b: seq<byte>): (s: string)
    ensures |s| == if |b| % 3 == 0 then |b| / 3 * 4 else (|b| / 3 + 1) * 4
    ensures forall i :: 0 <= i < |s| ==> IsBase64Char(s[i]) || s[i] == '='
    decreases |b|
  {
    if |b| == 0 then ""
    else if |b| == 1 then EncodeOne(b[0])
    else if |b| == 2 then EncodeTwo(b[0], b[1])
    else EncodeThree(b[0], b[1], b[2]) + Base64Encode(b[3..])
  }

  /** ErgoScript's `fromBase64`: the inverse of `Base64Encode`; `None` on text that is not base64. */
  function Base64Decode(s: string): (r: Option<seq<byte>>)
    decreases |s|
  {
    if |s| == 0 then Some([])
    else if |s| < 4 || !IsBase64Char(s[0]) || !IsBase64Char(s[1]) then None
    else
      var v0, v1 := Base64Value(s[0]), Base64Value(s[1]);
      var b0 := v0 * 4 + v1 / 16;
      if s[2] == '=' && s[3] == '=' then
        (if |s| == 4 then Some([b0]) else None)
      else if !IsBase64Char(s[2]) then None
      else
        var v2 := Base64Value(s[2]);
        var b1 := v1 % 16 * 16 + v2 / 4;
        if s[3] == '=' then
          (if |s| == 4 then Some([b0, b1]) else None)
        else if !IsBase64Char(s[3]) then None
        else
          var b2 := v2 % 4 * 64 + Base64Value(s[3]);
          match Base64Decode(s[4..])
          case None => None
          case Some(rest) => Some([b0, b1, b2] + rest)
  }

  lemma DecodeOneByte(x: byte)
    ensures Base64Decode(EncodeOne(x)) == Some([x])
  {
    Base64CharValue(x / 4);
    Base64CharValue(x % 4 * 16);
    assert (x % 4 * 16) / 16 == x % 4;
  }

  lemma DecodeTwoBytes(x: byte, y: byte)
    ensures Base64Decode(EncodeTwo(x, y)) == Some([x, y])
  {
    var i0, i1, i2 := x / 4, x % 4 * 16 + y / 16, y % 16 * 4;
    Base64CharValue(i0);
    Base64CharValue(i1);
    Base64CharValue(i2);
    assert i1 / 16 == x % 4 && i1 % 16 == y / 16;
    assert i2 / 4 == y % 16;
  }

  /** Three bytes cut into four 6-bit groups are put back together by the decoder's arithmetic. */
  lemma SplitThreeBytes(x: byte, y: byte, z: byte)
    ensures var c1, c2 := x % 4 * 16 + y / 16, y % 16 * 4 + z / 64;
      (x / 4) * 4 + c1 / 16 == x && c1 % 16 * 16 + c2 / 4 == y && c2 % 4 * 64 + z % 64 == z
  {
    var c1, c2 := x % 4 * 16 + y / 16, y % 16 * 4 + z / 64;
    assert c1 / 16 == x % 4 && c1 % 16 == y / 16;
    assert c2 / 4 == y % 16 && c2 % 4 == z / 64;
  }

  /** A leading group of four base64 characters decodes to three bytes. */
  lemma DecodeQuad(s: string)
    requires |s| >= 4 && IsBase64Char(s[0]) && IsBase64Char(s[1]) && IsBase64Char(s[2]) && IsBase64Char(s[3])
    ensures var v0, v1, v2, v3 := Base64Value(s[0]), Base64Value(s[1]), Base64Value(s[2]), Base64Value(s[3]);
      Base64Decode(s) == match Base64Decode(s[4..])
                         case None => None
                         case Some(r) => Some([v0 * 4 + v1 / 16, v1 % 16 * 16 + v2 / 4, v2 % 4 * 64 + v3] + r)
  {
  }

  lemma DecodeThreeBytes(x: byte, y: byte, z: byte, rest: string, r: seq<byte>)
    requires Base64Decode(rest) == Some(r)
    ensures Base64Decode(EncodeThree(x, y, z) + rest) == Some([x, y, z] + r)
  {
    var i0, i1, i2, i3 := x / 4, x % 4 * 16 + y / 16, y % 16 * 4 + z / 64, z % 64;
    SplitThreeBytes(x, y, z);
    Base64CharValue(i0);
    Base64CharValue(i1);
    Base64CharValue(i2);
    Base64CharValue(i3);
    var s := EncodeThree(x, y, z) + rest;
    DecodeQuad(s);
    assert s[4..] == rest;
  }

  lemma RoundTripShort(b: seq<byte>)
    requires 0 < |b| < 3
    ensures Base64Decode(Base64Encode(b)) == Some(b)
  {
    if |b| == 1 {
      assert Base64Encode(b) == EncodeOne(b[0]);
      DecodeOneByte(b[0]);
      assert b == [b[0]];
    } else {
      assert Base64Encode(b) == EncodeTwo(b[0], b[1]);
      DecodeTwoBytes(b[0], b[1]);
      assert b == [b[0], b[1]];
    }
  }

  lemma HeadAndTail(b: seq<byte>)
    requires |b| >= 3
    ensures b == [b[0], b[1], b[2]] + b[3..]
  {
    assert b == b[..3] + b[3..];
  }

  lemma RoundTripStep(b: seq<byte>)
    requires |b| >= 3 && Base64Decode(Base64Encode(b[3..])) == Some(b[3..])
    ensures Base64Decode(Base64Encode(b)) == Some(b)
  {
    var x, y, z, tail := b[0], b[1], b[2], b[3..];
    var rest := Base64Encode(tail);
    assert Base64Encode(b) == EncodeThree(x, y, z) + rest;
    DecodeThreeBytes(x, y, z, rest, tail);
    HeadAndTail(b);
  }

  /** What the contract's `fromBase64` reads back is exactly what was encoded. */
  lemma {:induction false} Base64RoundTrip(b: seq<byte>)
    ensures Base64Decode(Base64Encode(b)) == Some(b)
    decreases |b|
  {
    if |b| >= 3 {
      Base64RoundTrip(b[3..]);
      RoundTripStep(b);
    } else if |b| > 0 {
      RoundTripShort(b);
    }
  }

  // ---------------------------------------------------------------- text

  /** The UTF-8 bytes of one character. */
  function CharUtf8(c: char): (r: seq<byte>)
    ensures 1 <= |r| <= 4
    ensures c as int < 0x80 <==> |r| == 1
  {
    var n := c as int;
    if n < 0x80 then [n]
    else if n < 0x800 then [0xC0 + n / 0x40, 0x80 + n % 0x40]
    else if n < 0x1_0000 then [0xE0 + n / 0x1000, 0x80 + n / 0x40 % 0x40, 0x80 + n % 0x40]
    else [0xF0 + n / 0x4_0000, 0x80 + n / 0x1000 % 0x40, 0x80 + n / 0x40 % 0x40, 0x80 + n % 0x40]
  }

  /**
   * The bytes behind `Serializer.stringToHex(text)`: the text's UTF-8
   * encoding, one to four bytes per character, one byte for ASCII.
   */
  function Utf8(t: string): (r: seq<byte>)
    ensures |t| <= |r| <= 4 * |t|
    ensures (forall i :: 0 <= i < |t| ==> t[i] as int < 0x80) ==> |r| == |t|
    decreases |t|
  {
    if t == [] then [] else CharUtf8(t[0]) + Utf8(t[1..])
  }

  // ---------------------------------------------------------------- decimal

  function DigitChar(d: int): (c: char)
    requires 0 <= d < 10
    ensures '0' <= c <= '9'
  {
    ('0' as int + d) as char
  }

  predicate AllDigits(s: string) {
    forall i :: 0 <= i < |s| ==> '0' <= s[i] <= '9'
  }

  /** The decimal digits of a natural number, without leading zeros. */
  function Digits(n: nat): (s: string)
    ensures |s| > 0 && AllDigits(s)
  {
    if n < 10 then [DigitChar(n)] else Digits(n / 10) + [DigitChar(n % 10)]
  }

  /** `n.toString()` for an integer-valued JavaScript number. */
  function Decimal(n: int): (s: string)
    ensures forall i :: 0 <= i < |s| ==> ('0' <= s[i] <= '9') || s[i] == '-'
  {
    if n < 0 then "-" + Digits(-n) else Digits(n)
  }

  /** The value of a run of decimal digits, most significant first. */
  function DigitsValue(s: string): (n: nat)
    requires AllDigits(s)
    decreases |s|
  {
    if s == [] then 0 else DigitsValue(s[..|s| - 1]) * 10 + (s[|s| - 1] as int - '0' as int)
  }

  /** How ErgoScript reads an integer literal: an optional minus sign, then digits. */
  function ParseDecimal(s: string): (r: Option<int>)
  {
    if |s| > 0 && s[0] == '-' then
      (if |s| > 1 && AllDigits(s[1..]) then var v: int := DigitsValue(s[1..]); Some(-v) else None)
    else if |s| > 0 && AllDigits(s) then Some(DigitsValue(s))
    else None
  }

  lemma {:induction false} DigitsRoundTrip(n: nat)
    ensures DigitsValue(Digits(n)) == n
  {
    if n >= 10 {
      var s := Digits(n);
      assert s[..|s| - 1] == Digits(n / 10);
      DigitsRoundTrip(n / 10);
    }
  }

  /** The integer the contract reads from a substituted literal is the one that was written. */
  lemma DecimalRoundTrip(n: int)
    ensures ParseDecimal(Decimal(n)) == Some(n)
  {
    if n < 0 {
      assert Decimal(n)[1..] == Digits(-n);
      DigitsRoundTrip(-n);
    } else {
      DigitsRoundTrip(n);
    }
  }
}
