/**
 * The payload encoding of a secret version: the UTF-8 bytes of a string,
 * written in the Base64 alphabet of RFC 4648 section 4 with '=' padding.
 */
module Base64 {
  import opened Common

  type Byte = x: int | 0 <= x < 256

  /** UTF-8 encoding of one Unicode scalar value (RFC 3629 section 3). */
  function Utf8Char(c: char): (bs: seq<Byte>)
    ensures 1 <= |bs| <= 4
    ensures c as int < 0x80 ==> bs == [c as int as Byte]
  {
    var n := c as int;
    if n < 0x80 then [n as Byte]
    else if n < 0x800 then [0xC0 + n / 64, 0x80 + n % 64]
    else if n < 0x10000 then [0xE0 + n / 4096, 0x80 + (n / 64) % 64, 0x80 + n % 64]
    else [0xF0 + n / 262144, 0x80 + (n / 4096) % 64, 0x80 + (n / 64) % 64, 0x80 + n % 64]
  }

  /** Python's `s.encode('utf-8')`. */
  function Utf8(s: string): seq<Byte> {
    if s == [] then [] else Utf8Char(s[0]) + Utf8(s[1..])
  }

  lemma {:induction false} Utf8Concat(a: string, b: string)
    ensures Utf8(a + b) == Utf8(a) + Utf8(b)
  {
    if a == [] {
      assert a + b == b;
    } else {
      assert (a + b)[1..] == a[1..] + b;
      Utf8Concat(a[1..], b);
    }
  }

  predicate IsAscii(s: string) {
    forall i :: 0 <= i < |s| ==> s[i] as int < 0x80
  }

  /** An ASCII string encodes to its own code points, one byte per character. */
  lemma {:induction false} Utf8Ascii(s: string)
    requires IsAscii(s)
    ensures |Utf8(s)| == |s|
    ensures forall i :: 0 <= i < |s| ==> Utf8(s)[i] == s[i] as int
  {
    if s != [] {
      Utf8Ascii(s[1..]);
    }
  }

  /** The character for a 6-bit value. */
  function Digit(v: int): (c: char)
    requires 0 <= v < 64
  {
    if v < 26 then (v + 'A' as int) as char
    else if v < 52 then (v - 26 + 'a' as int) as char
    else if v < 62 then (v - 52 + '0' as int) as char
    else if v == 62 then '+'
    else '/'
  }

  predicate IsDigit(c: char) {
    'A' <= c <= 'Z' || 'a' <= c <= 'z' || '0' <= c <= '9' || c == '+' || c == '/'
  }

  function DigitValue(c: char): (v: int)
    requires IsDigit(c)
    ensures 0 <= v < 64
  {
    if 'A' <= c <= 'Z' then c as int - 'A' as int
    else if 'a' <= c <= 'z' then c as int - 'a' as int + 26
    else if '0' <= c <= '9' then c as int - '0' as int + 52
    else if c == '+' then 62
    else 63
  }

  lemma DigitRoundTrip(v: int)
    requires 0 <= v < 64
    ensures IsDigit(Digit(v)) && DigitValue(Digit(v)) == v && Digit(v) != '='
  {
  }

  /** Three bytes become four characters. */
  function Block(b0: Byte, b1: Byte, b2: Byte): string {
    [Digit(b0 / 4), Digit((b0 % 4) * 16 + b1 / 16), Digit((b1 % 16) * 4 + b2 / 64), Digit(b2 % 64)]
  }

  /** A final single byte: two characters and two pads. */
  function Tail1(b0: Byte): string {
    [Digit(b0 / 4), Digit((b0 % 4) * 16), '=', '=']
  }

  /** Two final bytes: three characters and one pad. */
  function Tail2(b0: Byte, b1: Byte): string {
    [Digit(b0 / 4), Digit((b0 % 4) * 16 + b1 / 16), Digit((b1 % 16) * 4), '=']
  }

  /** Python's `base64.b64encode(bs).decode('utf-8')`. */
  function Encode(bs: seq<Byte>): (s: string)
    ensures |s| == (|bs| + 2) / 3 * 4
  {
    if |bs| == 0 then []
    else if |bs| == 1 then Tail1(bs[0])
    else if |bs| == 2 then Tail2(bs[0], bs[1])
    else Block(bs[0], bs[1], bs[2]) + Encode(bs[3..])
  }

  /** The inverse reading: four characters at a time, padding only at the end. */
  function Decode(s: string): Option<seq<Byte>> {
    if s == [] then Some([])
    else if |s| < 4 || !IsDigit(s[0]) || !IsDigit(s[1]) then None
    else
      var v0, v1 := DigitValue(s[0]), DigitValue(s[1]);
      var b0 := v0 * 4 + v1 / 16;
      if |s| == 4 && s[2] == '=' && s[3] == '=' then Some([b0])
      else if !IsDigit(s[2]) then None
      else
        var v2 := DigitValue(s[2]);
        var b1 := (v1 % 16) * 16 + v2 / 4;
        if |s| == 4 && s[3] == '=' then Some([b0, b1])
        else if !IsDigit(s[3]) then None
        else
          var b2 := (v2 % 4) * 64 + DigitValue(s[3]);
          match Decode(s[4..])
          case None => None
          case Some(rest) => Some([b0, b1, b2] + rest)
  }

  lemma BlockRoundTrip(b0: Byte, b1: Byte, b2: Byte)
    ensures var v0, v1, v2, v3 := b0 / 4, (b0 % 4) * 16 + b1 / 16, (b1 % 16) * 4 + b2 / 64, b2 % 64;
      v0 * 4 + v1 / 16 == b0 && (v1 % 16) * 16 + v2 / 4 == b1 && (v2 % 4) * 64 + v3 == b2
  {
  }

  lemma DecodeTail1(b0: Byte)
    ensures Decode(Tail1(b0)) == Some([b0])
  {
    BlockRoundTrip(b0, 0, 0);
    DigitRoundTrip(b0 / 4);
    DigitRoundTrip((b0 % 4) * 16);
  }

  lemma DecodeTail2(b0: Byte, b1: Byte)
    ensures Decode(Tail2(b0, b1)) == Some([b0, b1])
  {
    BlockRoundTrip(b0, b1, 0);
    DigitRoundTrip(b0 / 4);
    DigitRoundTrip((b0 % 4) * 16 + b1 / 16);
    DigitRoundTrip((b1 % 16) * 4);
  }

  lemma DecodeBlock(b0: Byte, b1: Byte, b2: Byte, rest: string, tail: seq<Byte>)
    requires Decode(rest) == Some(tail)
    ensures Decode(Block(b0, b1, b2) + rest) == Some([b0, b1, b2] + tail)
  {
    var v0, v1, v2, v3 := b0 / 4, (b0 % 4) * 16 + b1 / 16, (b1 % 16) * 4 + b2 / 64, b2 % 64;
    var s := Block(b0, b1, b2) + rest;
    BlockRoundTrip(b0, b1, b2);
    DigitRoundTrip(v0);
    DigitRoundTrip(v1);
    DigitRoundTrip(v2);
    DigitRoundTrip(v3);
    assert s[0] == Digit(v0) && s[1] == Digit(v1) && s[2] == Digit(v2) && s[3] == Digit(v3);
    assert s[4..] == rest;
    DecodeFullBlock(s, v0, v1, v2, v3, tail);
  }

  /** Four digits with values v0..v3 before a decodable rest decode to their three bytes and the rest. */
  lemma DecodeFullBlock(s: string, v0: int, v1: int, v2: int, v3: int, tail: seq<Byte>)
    requires |s| >= 4 && IsDigit(s[0]) && IsDigit(s[1]) && IsDigit(s[2]) && IsDigit(s[3])
    requires DigitValue(s[0]) == v0 && DigitValue(s[1]) == v1 && DigitValue(s[2]) == v2 && DigitValue(s[3]) == v3
    requires Decode(s[4..]) == Some(tail)
    ensures Decode(s) == Some([v0 * 4 + v1 / 16, (v1 % 16) * 16 + v2 / 4, (v2 % 4) * 64 + v3] + tail)
  {
  }

  /** Decoding undoes encoding on every byte string. */
  lemma {:induction false} DecodeEncode(bs: seq<Byte>)
    ensures Decode(Encode(bs)) == Some(bs)
    decreases |bs|
  {
    if |bs| == 1 {
      assert Encode(bs) == Tail1(bs[0]);
      DecodeTail1(bs[0]);
      assert bs == [bs[0]];
    } else if |bs| == 2 {
      assert Encode(bs) == Tail2(bs[0], bs[1]);
      DecodeTail2(bs[0], bs[1]);
      assert bs == [bs[0], bs[1]];
    } else if |bs| >= 3 {
      var rest := bs[3..];
      var encoded := Encode(rest);
      assert Encode(bs) == Block(bs[0], bs[1], bs[2]) + encoded;
      DecodeEncode(rest);
      DecodeBlock(bs[0], bs[1], bs[2], encoded, rest);
      assert bs == [bs[0], bs[1], bs[2]] + rest;
    }
  }

  /** Every encoded character is in the RFC 4648 alphabet or is a pad. */
  lemma {:induction false} EncodeAlphabet(bs: seq<Byte>)
    ensures forall i :: 0 <= i < |Encode(bs)| ==> IsDigit(Encode(bs)[i]) || Encode(bs)[i] == '='
    decreases |bs|
  {
    if |bs| >= 3 {
      EncodeAlphabet(bs[3..]);
      var b0, b1, b2 := bs[0], bs[1], bs[2];
      DigitRoundTrip(b0 / 4);
      DigitRoundTrip((b0 % 4) * 16 + b1 / 16);
      DigitRoundTrip((b1 % 16) * 4 + b2 / 64);
      DigitRoundTrip(b2 % 64);
    } else if |bs| == 2 {
      DigitRoundTrip(bs[0] / 4);
      DigitRoundTrip((bs[0] % 4) * 16 + bs[1] / 16);
      DigitRoundTrip((bs[1] % 16) * 4);
    } else if |bs| == 1 {
      DigitRoundTrip(bs[0] / 4);
      DigitRoundTrip((bs[0] % 4) * 16);
    }
  }
}
