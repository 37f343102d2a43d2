/**
  UTF-8 (section 3 of RFC 3629), as .NET's `Encoding.UTF8` applies it to a
  string of Unicode scalar values: the byte count used by the payload size
  limit and the bytes that `Uri.EscapeDataString` percent-encodes.
 */
module Utf8 {

  import opened Wrappers

  newtype byte = x: int | 0 <= x < 256

  predicate IsContinuation(b: byte)
  {
    0x80 <= b < 0xC0
  }

  /** The one to four bytes that encode one scalar value. */
  function EncodeChar(c: char): (bs: seq<byte>)
    ensures 1 <= |bs| <= 4
    ensures (|bs| == 1) == (c as int < 0x80)
    ensures bs[0] < 0x80 || 0xC0 <= bs[0] < 0xF8
    ensures forall k :: 1 <= k < |bs| ==> IsContinuation(bs[k])
  {
    var v := c as int;
    if v < 0x80 then [v as byte]
    else if v < 0x800 then [(0xC0 + v / 64) as byte, (0x80 + v % 64) as byte]
    else if v < 0x10000 then
      [(0xE0 + v / 4096) as byte, (0x80 + v / 64 % 64) as byte, (0x80 + v % 64) as byte]
    else
      [(0xF0 + v / 262144) as byte, (0x80 + v / 4096 % 64) as byte,
       (0x80 + v / 64 % 64) as byte, (0x80 + v % 64) as byte]
  }

  function Encode(s: string): seq<byte>
  {
    if s == [] then [] else EncodeChar(s[0]) + Encode(s[1..])
  }

  /** `Encoding.UTF8.GetByteCount`. */
  function ByteCount(s: string): (n: nat)
    ensures n >= |s|
  {
    if s == [] then 0 else |EncodeChar(s[0])| + ByteCount(s[1..])
  }

  lemma {:induction false} ByteCountIsEncodedLength(s: string)
    ensures ByteCount(s) == |Encode(s)|
  {
    if s != [] {
      ByteCountIsEncodedLength(s[1..]);
    }
  }

  predicate IsScalar(v: int)
  {
    0 <= v < 0xD800 || 0xE000 <= v < 0x110000
  }

  /** The scalar value at the front of `bs` and the number of bytes it takes, if well formed. */
  function DecodeChar(bs: seq<byte>): Option<(char, nat)>
  {
    if |bs| == 0 then None
    else if bs[0] < 0x80 then Some((bs[0] as int as char, 1))
    else if 0xC0 <= bs[0] < 0xE0 && |bs| >= 2 && IsContinuation(bs[1]) then
      var v := (bs[0] as int - 0xC0) * 64 + (bs[1] as int - 0x80);
      if 0x80 <= v then Some((v as char, 2)) else None
    else if 0xE0 <= bs[0] < 0xF0 && |bs| >= 3 && IsContinuation(bs[1]) && IsContinuation(bs[2]) then
      var v := (bs[0] as int - 0xE0) * 4096 + (bs[1] as int - 0x80) * 64 + (bs[2] as int - 0x80);
      if 0x800 <= v && IsScalar(v) then Some((v as char, 3)) else None
    else if 0xF0 <= bs[0] < 0xF8 && |bs| >= 4 && IsContinuation(bs[1]) && IsContinuation(bs[2])
            && IsContinuation(bs[3]) then
      var v := (bs[0] as int - 0xF0) * 262144 + (bs[1] as int - 0x80) * 4096
               + (bs[2] as int - 0x80) * 64 + (bs[3] as int - 0x80);
      if 0x10000 <= v < 0x110000 then Some((v as char, 4)) else None
    else None
  }

  function Decode(bs: seq<byte>): Option<string>
    decreases |bs|
  {
    if bs == [] then Some("")
    else match DecodeChar(bs)
      case None => None
      case Some((c, n)) =>
        if n == 0 || n > |bs| then None
        else match Decode(bs[n..])
          case None => None
          case Some(rest) => Some([c] + rest)
  }

  lemma DecodeTwoBytes(v: int, rest: seq<byte>)
    requires 0x80 <= v < 0x800
    ensures var bs := [(0xC0 + v / 64) as byte, (0x80 + v % 64) as byte];
      DecodeChar(bs + rest) == Some((v as char, 2))
  {
    var b0, b1 := (0xC0 + v / 64) as byte, (0x80 + v % 64) as byte;
    var bs := [b0, b1] + rest;
    assert bs[0] == b0 && bs[1] == b1;
    assert (b0 as int - 0xC0) * 64 + (b1 as int - 0x80) == v;
  }

  lemma DecodeThreeBytes(v: int, rest: seq<byte>)
    requires 0x800 <= v < 0x10000 && IsScalar(v)
    ensures var bs := [(0xE0 + v / 4096) as byte, (0x80 + v / 64 % 64) as byte, (0x80 + v % 64) as byte];
      DecodeChar(bs + rest) == Some((v as char, 3))
  {
    var hi, mid, lo := v / 4096, v / 64 % 64, v % 64;
    assert v / 64 == hi * 64 + mid;
    assert v == hi * 4096 + mid * 64 + lo;
    var b0, b1, b2 := (0xE0 + hi) as byte, (0x80 + mid) as byte, (0x80 + lo) as byte;
    var bs := [b0, b1, b2] + rest;
    assert bs[0] == b0 && bs[1] == b1 && bs[2] == b2;
  }

  lemma DecodeFourBytes(v: int, rest: seq<byte>)
    requires 0x10000 <= v < 0x110000
    ensures var bs := [(0xF0 + v / 262144) as byte, (0x80 + v / 4096 % 64) as byte,
                       (0x80 + v / 64 % 64) as byte, (0x80 + v % 64) as byte];
      DecodeChar(bs + rest) == Some((v as char, 4))
  {
    var top, hi, mid, lo := v / 262144, v / 4096 % 64, v / 64 % 64, v % 64;
    assert v / 4096 == top * 64 + hi;
    assert v / 64 == (v / 4096) * 64 + mid;
    assert v == top * 262144 + hi * 4096 + mid * 64 + lo;
    var b0, b1, b2, b3 := (0xF0 + top) as byte, (0x80 + hi) as byte, (0x80 + mid) as byte, (0x80 + lo) as byte;
    var bs := [b0, b1, b2, b3] + rest;
    assert bs[0] == b0 && bs[1] == b1 && bs[2] == b2 && bs[3] == b3;
  }

  lemma DecodeEncodedChar(c: char, rest: seq<byte>)
    ensures DecodeChar(EncodeChar(c) + rest) == Some((c, |EncodeChar(c)|))
  {
    var v := c as int;
    if v < 0x80 {
      assert (EncodeChar(c) + rest)[0] == v as byte;
    } else if v < 0x800 {
      assert EncodeChar(c) == [(0xC0 + v / 64) as byte, (0x80 + v % 64) as byte];
      DecodeTwoBytes(v, rest);
    } else if v < 0x10000 {
      assert EncodeChar(c) == [(0xE0 + v / 4096) as byte, (0x80 + v / 64 % 64) as byte, (0x80 + v % 64) as byte];
      DecodeThreeBytes(v, rest);
    } else {
      assert EncodeChar(c) == [(0xF0 + v / 262144) as byte, (0x80 + v / 4096 % 64) as byte,
                               (0x80 + v / 64 % 64) as byte, (0x80 + v % 64) as byte];
      DecodeFourBytes(v, rest);
    }
  }

  /** Decoding the encoding of a string gives the string back. */
  lemma {:induction false} DecodeEncode(s: string)
    ensures Decode(Encode(s)) == Some(s)
  {
    if s != [] {
      var e := EncodeChar(s[0]);
      DecodeEncodedChar(s[0], Encode(s[1..]));
      assert (e + Encode(s[1..]))[|e|..] == Encode(s[1..]);
      DecodeEncode(s[1..]);
      assert [s[0]] + s[1..] == s;
    }
  }
}
