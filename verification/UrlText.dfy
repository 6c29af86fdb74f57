// Percent encoding of C strings (apple/Core/support.c), which end at the first
// zero byte and so never contain one.
module UrlText {
  import opened Radix

  predicate Unreserved(b: Byte) {
    || '0' as int <= b <= '9' as int
    || 'A' as int <= b <= 'Z' as int
    || 'a' as int <= b <= 'z' as int
    || b == '-' as int || b == '_' as int || b == '.' as int || b == '~' as int
  }

  function HexDigit(v: nat): Byte
    requires v < 16
  {
    if v < 10 then v + '0' as int else v - 10 + 'A' as int
  }

  function HexValue(b: Byte): (v: int)
    ensures -1 <= v < 16
  {
    if '0' as int <= b <= '9' as int then b - '0' as int
    else if 'a' as int <= b <= 'f' as int then b - 'a' as int + 10
    else if 'A' as int <= b <= 'F' as int then b - 'A' as int + 10
    else -1
  }

  function EncodeByte(b: Byte): seq<Byte> {
    if Unreserved(b) then [b] else ['%' as int, HexDigit(b / 16), HexDigit(b % 16)]
  }

  function EncodeUrl(s: seq<Byte>): seq<Byte> {
    if |s| == 0 then [] else EncodeByte(s[0]) + EncodeUrl(s[1..])
  }

  predicate Escape(s: seq<Byte>) {
    |s| >= 3 && s[0] == '%' as int && HexValue(s[1]) >= 0 && HexValue(s[2]) >= 0
  }

  function DecodeUrl(s: seq<Byte>, plusAsSpace: bool): seq<Byte> {
    if |s| == 0 then [] else [First(s, plusAsSpace)] + DecodeUrl(s[Width(s)..], plusAsSpace)
  }

  /** The first decoded byte, and how many bytes of text it takes. */
  function First(s: seq<Byte>, plusAsSpace: bool): Byte
    requires |s| > 0
  {
    if Escape(s) then HexValue(s[1]) * 16 + HexValue(s[2])
    else if s[0] == '+' as int && plusAsSpace then ' ' as int
    else s[0]
  }

  function Width(s: seq<Byte>): (n: nat)
    requires |s| > 0
    ensures 0 < n <= |s|
  {
    if Escape(s) then 3 else 1
  }

  lemma {:induction false} HexRoundTrip(b: Byte)
    ensures HexValue(HexDigit(b / 16)) == b / 16 && HexValue(HexDigit(b % 16)) == b % 16
  {
  }

  lemma {:induction false} DecodeHead(b: Byte, rest: seq<Byte>, plusAsSpace: bool)
    ensures DecodeUrl(EncodeByte(b) + rest, plusAsSpace) == [b] + DecodeUrl(rest, plusAsSpace)
  {
    var t := EncodeByte(b) + rest;
    if Unreserved(b) {
      assert t[1..] == rest;
    } else {
      HexRoundTrip(b);
      assert t[3..] == rest;
    }
  }

  /** Decoding undoes encoding, whichever way `+` is read. */
  lemma {:induction false} UrlRoundTrip(s: seq<Byte>, plusAsSpace: bool)
    ensures DecodeUrl(EncodeUrl(s), plusAsSpace) == s
  {
    if |s| == 0 {
    } else {
      UrlRoundTrip(s[1..], plusAsSpace);
      DecodeHead(s[0], EncodeUrl(s[1..]), plusAsSpace);
      assert s == [s[0]] + s[1..];
    }
  }

  method EncodeText(s: seq<Byte>) returns (b: seq<Byte>)
    ensures b == EncodeUrl(s)
  {
    hide EncodeByte;
    b := [];
    for i := 0 to |s|
      invariant b + EncodeUrl(s[i..]) == EncodeUrl(s)
    {
      var c := EncodeByte(s[i]);
      assert s[i..][1..] == s[i + 1..];
      assert b + (c + EncodeUrl(s[i + 1..])) == b + c + EncodeUrl(s[i + 1..]);
      b := b + c;
    }
  }

  method DecodeText(s: seq<Byte>, plusAsSpace: bool) returns (b: seq<Byte>)
    ensures b == DecodeUrl(s, plusAsSpace)
  {
    hide First, Width;
    b := [];
    var p := 0;
    while p < |s|
      invariant 0 <= p <= |s|
      invariant b + DecodeUrl(s[p..], plusAsSpace) == DecodeUrl(s, plusAsSpace)
    {
      var c, n := First(s[p..], plusAsSpace), Width(s[p..]);
      assert s[p..][n..] == s[p + n..];
      assert b + ([c] + DecodeUrl(s[p + n..], plusAsSpace)) == b + [c] + DecodeUrl(s[p + n..], plusAsSpace);
      b := b + [c];
      p := p + n;
    }
  }
}
