/**
  `Uri.EscapeDataString` and its inverse: percent-encoding (section 2.1 of
  RFC 3986) of the UTF-8 bytes of a string, leaving the unreserved characters
  of section 2.3 of RFC 3986 as they are and writing upper-case hex digits.
 */
module UriEscaping {

  import opened Wrappers
  import Utf8

  type byte = Utf8.byte

  /** ALPHA / DIGIT / "-" / "." / "_" / "~" (section 2.3 of RFC 3986). */
  predicate IsUnreserved(c: char)
  {
    ('A' <= c <= 'Z') || ('a' <= c <= 'z') || ('0' <= c <= '9')
    || c == '-' || c == '.' || c == '_' || c == '~'
  }

  function HexDigit(d: nat): (c: char)
    requires d < 16
  {
    "0123456789ABCDEF"[d]
  }

  /** The value of one hex digit, either case. */
  function HexValue(c: char): Option<nat>
  {
    if '0' <= c <= '9' then Some(c as int - '0' as int)
    else if 'A' <= c <= 'F' then Some(c as int - 'A' as int + 10)
    else if 'a' <= c <= 'f' then Some(c as int - 'a' as int + 10)
    else None
  }

  /** A character that can occur in an escaped string. */
  predicate IsEscapedChar(c: char)
  {
    IsUnreserved(c) || c == '%'
  }

  function EscapeByte(b: byte): (r: string)
    ensures forall i :: 0 <= i < |r| ==> IsEscapedChar(r[i])
  {
    if b < 0x80 && IsUnreserved(b as int as char) then [b as int as char]
    else ['%', HexDigit(b as int / 16), HexDigit(b as int % 16)]
  }

  function EscapeBytes(bs: seq<byte>): string
  {
    if bs == [] then "" else EscapeByte(bs[0]) + EscapeBytes(bs[1..])
  }

  /** `Uri.EscapeDataString`. */
  function EscapeDataString(s: string): string
  {
    EscapeBytes(Utf8.Encode(s))
  }

  /** Percent-decoding to bytes: `%XX` is one byte, any other ASCII character is itself. */
  function UnescapeBytes(t: string): Option<seq<byte>>
  {
    if t == [] then Some([])
    else if t[0] == '%' then
      if |t| >= 3 && HexValue(t[1]).Some? && HexValue(t[2]).Some? then
        match UnescapeBytes(t[3..])
        case None => None
        case Some(rest) => Some([(HexValue(t[1]).value * 16 + HexValue(t[2]).value) as byte] + rest)
      else None
    else if t[0] as int < 0x80 then
      match UnescapeBytes(t[1..])
      case None => None
      case Some(rest) => Some([t[0] as int as byte] + rest)
    else None
  }

  /** `Uri.UnescapeDataString` for well-formed input: percent-decoding, then UTF-8 decoding. */
  function UnescapeDataString(t: string): Option<string>
  {
    match UnescapeBytes(t)
    case None => None
    case Some(bs) => Utf8.Decode(bs)
  }

  /** Only unreserved characters and '%' escapes appear in an escaped string. */
  lemma {:induction false} EscapedCharsOnly(bs: seq<byte>)
    ensures forall i :: 0 <= i < |EscapeBytes(bs)| ==> IsEscapedChar(EscapeBytes(bs)[i])
  {
    if bs != [] {
      EscapedCharsOnly(bs[1..]);
      var h, t := EscapeByte(bs[0]), EscapeBytes(bs[1..]);
      forall i | 0 <= i < |h + t| ensures IsEscapedChar((h + t)[i]) {
        if i >= |h| { assert (h + t)[i] == t[i - |h|]; }
      }
    }
  }

  /** The query delimiters '&' and '=' never occur in an escaped string. */
  lemma NoQueryDelimiters(s: string)
    ensures '&' !in EscapeDataString(s) && '=' !in EscapeDataString(s)
  {
    EscapedCharsOnly(Utf8.Encode(s));
  }

  lemma HexValueOfDigit(d: nat)
    requires d < 16
    ensures HexValue(HexDigit(d)) == Some(d)
  {
  }

  lemma UnescapeEscapedByte(b: byte, rest: string)
    ensures UnescapeBytes(EscapeByte(b) + rest)
            == match UnescapeBytes(rest) case None => None case Some(r) => Some([b] + r)
  {
    var t := EscapeByte(b) + rest;
    if b < 0x80 && IsUnreserved(b as int as char) {
      assert t[0] == b as int as char && t[0] != '%';
      assert t[1..] == rest;
    } else {
      var hi, lo := b as int / 16, b as int % 16;
      HexValueOfDigit(hi);
      HexValueOfDigit(lo);
      assert t[0] == '%' && t[1] == HexDigit(hi) && t[2] == HexDigit(lo);
      assert t[3..] == rest;
      assert (hi * 16 + lo) as byte == b;
    }
  }

  /** Percent-decoding undoes percent-encoding. */
  lemma {:induction false} UnescapeEscapeBytes(bs: seq<byte>)
    ensures UnescapeBytes(EscapeBytes(bs)) == Some(bs)
  {
    if bs != [] {
      UnescapeEscapeBytes(bs[1..]);
      UnescapeEscapedByte(bs[0], EscapeBytes(bs[1..]));
      assert [bs[0]] + bs[1..] == bs;
    }
  }

  /** `Uri.UnescapeDataString(Uri.EscapeDataString(s)) == s`. */
  lemma EscapeDataStringRoundTrip(s: string)
    ensures UnescapeDataString(EscapeDataString(s)) == Some(s)
  {
    UnescapeEscapeBytes(Utf8.Encode(s));
    Utf8.DecodeEncode(s);
  }

  /** A string of unreserved characters is left exactly as it is. */
  lemma {:induction false} UnreservedUnchanged(s: string)
    requires forall i :: 0 <= i < |s| ==> IsUnreserved(s[i])
    ensures EscapeDataString(s) == s
  {
    if s != [] {
      UnreservedUnchanged(s[1..]);
      assert [s[0]] + s[1..] == s;
    }
  }

  /** Every character that is not unreserved is percent-encoded: a space becomes "%20". */
  lemma {:induction false} ReservedEscaped(c: char)
    requires !IsUnreserved(c)
    ensures EscapeDataString([c]) != [c] && EscapeDataString([c])[0] == '%'
  {
    assert [c][1..] == [];
  }

  lemma SpaceEscape()
    ensures EscapeDataString("1 2") == "1%202"
  {
    assert "1 2"[1..] == " 2" && " 2"[1..] == "2" && "2"[1..] == "";
  }
}
