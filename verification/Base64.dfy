// Base64 as the client core encodes and decodes it (apple/Core/support.c):
// a padded standard alphabet, an unpadded URL alphabet, and a lenient reader.
module Base64 {
  import opened Common
  import opened Radix

  datatype Mode = Lenient | Standard | Url

  function Alphabet(url: bool, v: nat): char
    requires v < 64
  {
    if v < 26 then (v + 'A' as int) as char
    else if v < 52 then (v - 26 + 'a' as int) as char
    else if v < 62 then (v - 52 + '0' as int) as char
    else if v == 62 then (if url then '-' else '+')
    else (if url then '_' else '/')
  }

  function Value(c: char, mode: Mode): (v: int)
    ensures -1 <= v < 64
  {
    if 'A' <= c <= 'Z' then c as int - 'A' as int
    else if 'a' <= c <= 'z' then c as int - 'a' as int + 26
    else if '0' <= c <= '9' then c as int - '0' as int + 52
    else if c == '+' && mode != Url then 62
    else if c == '/' && mode != Url then 63
    else if c == '-' && mode != Standard then 62
    else if c == '_' && mode != Standard then 63
    else -1
  }

  predicate IsSpace(c: char) { c == ' ' || 9 <= c as int <= 13 }

  function Text(url: bool, vs: seq<nat>): (t: string)
    requires AllBelow(64, vs)
    ensures |t| == |vs|
  {
    seq(|vs|, i requires 0 <= i < |vs| => assert vs[i] < 64; Alphabet(url, vs[i]))
  }

  function Equals(n: nat): (t: string)
    ensures |t| == n && forall i :: 0 <= i < n ==> t[i] == '='
  {
    seq(n, _ => '=')
  }

  function PadCount(n: nat): nat { [0, 3, 2, 1][n % 4] }

  /** The encoding as RFC 4648, sections 4 and 5, defines it. */
  function Encode(d: seq<Byte>, url: bool, pad: bool): string {
    var vs := ToValues(Sextet, d);
    Text(url, vs) + (if pad then Equals(PadCount(|vs|)) else "")
  }

  // ---- decoding ----

  datatype Scanned = Bad | Good(vs: seq<nat>, pads: nat)

  /** The values and the padding read so far, or Bad. */
  function Scan(t: string, mode: Mode): (r: Scanned)
    ensures r.Good? ==> AllBelow(64, r.vs)
  {
    if |t| == 0 then Good([], 0)
    else
      match Scan(t[..|t| - 1], mode)
      case Bad => Bad
      case Good(vs, pads) => Accept(vs, pads, t[|t| - 1], mode)
  }

  function Accept(vs: seq<nat>, pads: nat, c: char, mode: Mode): (r: Scanned)
    requires AllBelow(64, vs)
    ensures r.Good? ==> AllBelow(64, r.vs)
  {
    if mode == Lenient && IsSpace(c) then Good(vs, pads)
    else if c == '=' then Good(vs, pads + 1)
    else if pads > 0 || Value(c, mode) < 0 then Bad
    else
      var v: nat := Value(c, mode);
      Good(vs + [v], pads)
  }

  predicate PaddingAllowed(count: nat, pads: nat, mode: Mode) {
    && count % 4 != 1
    && match mode
       case Standard => (count + pads) % 4 == 0 && pads <= 2
       case Url => pads == 0
       case Lenient => pads <= 2
  }

  function Decode(t: string, mode: Mode): Option<seq<Byte>> {
    match Scan(t, mode)
    case Bad => None
    case Good(vs, pads) =>
      if PaddingAllowed(|vs|, pads, mode) && (mode == Lenient || SpareZero(Sextet, vs))
      then Some(ToBytes(Sextet, vs))
      else None
  }

  // ---- the alphabet and the scanner ----

  lemma {:induction false} AlphabetValue(url: bool, v: nat, mode: Mode)
    requires v < 64
    requires mode == Lenient || (mode == Url <==> url)
    ensures Value(Alphabet(url, v), mode) == v
    ensures Alphabet(url, v) != '=' && !IsSpace(Alphabet(url, v))
  {
  }

  lemma {:induction false} ValueAlphabet(c: char, mode: Mode)
    requires mode != Lenient && Value(c, mode) >= 0
    ensures Alphabet(mode == Url, Value(c, mode)) == c
  {
  }

  lemma {:induction false} ScanSnoc(t: string, c: char, mode: Mode)
    ensures Scan(t, mode).Bad? ==> Scan(t + [c], mode).Bad?
    ensures Scan(t, mode).Good? ==>
              Scan(t + [c], mode) == Accept(Scan(t, mode).vs, Scan(t, mode).pads, c, mode)
  {
    assert (t + [c])[..|t|] == t;
  }

  lemma {:induction false} ScanStaysBad(t: string, i: nat, mode: Mode)
    requires i <= |t| && Scan(t[..i], mode).Bad?
    ensures Scan(t, mode).Bad?
    decreases |t| - i
  {
    if i < |t| {
      ScanSnoc(t[..i], t[i], mode);
      assert t[..i + 1] == t[..i] + [t[i]];
      ScanStaysBad(t, i + 1, mode);
    } else {
      assert t[..i] == t;
    }
  }

  lemma {:induction false} ScanText(url: bool, vs: seq<nat>, mode: Mode)
    requires AllBelow(64, vs)
    requires mode == Lenient || (mode == Url <==> url)
    ensures Scan(Text(url, vs), mode) == Good(vs, 0)
  {
    hide Value, Alphabet, IsSpace;
    if |vs| == 0 {
    } else {
      var front, v := vs[..|vs| - 1], vs[|vs| - 1];
      ScanText(url, front, mode);
      AlphabetValue(url, v, mode);
      assert Text(url, vs) == Text(url, front) + [Alphabet(url, v)];
      ScanSnoc(Text(url, front), Alphabet(url, v), mode);
      assert vs == front + [v];
    }
  }

  lemma {:induction false} ScanPadded(t: string, n: nat, vs: seq<nat>, mode: Mode)
    requires Scan(t, mode) == Good(vs, 0)
    ensures Scan(t + Equals(n), mode) == Good(vs, n)
  {
    hide Scan, Value;
    if n == 0 {
      assert t + Equals(n) == t;
    } else {
      ScanPadded(t, n - 1, vs, mode);
      var front := t + Equals(n - 1);
      ScanSnoc(front, '=', mode);
      assert t + Equals(n) == front + ['='];
      assert Accept(vs, n - 1, '=', mode) == Good(vs, n);
    }
  }

  lemma {:induction false} AcceptedText(vs: seq<nat>, pads: nat, c: char, mode: Mode)
    requires AllBelow(64, vs) && mode != Lenient && Accept(vs, pads, c, mode).Good?
    ensures var Good(vs', pads') := Accept(vs, pads, c, mode);
            Text(mode == Url, vs') + Equals(pads') == Text(mode == Url, vs) + Equals(pads) + [c]
  {
    hide Value, Alphabet;
    if c == '=' {
      assert Equals(pads + 1) == Equals(pads) + ['='];
    } else {
      ValueAlphabet(c, mode);
      assert Text(mode == Url, vs + [Value(c, mode)]) == Text(mode == Url, vs) + [c];
      assert Equals(0) == "";
    }
  }

  /** In a strict mode a scanned text is its values' text and then padding. */
  lemma {:induction false} ScannedText(t: string, mode: Mode)
    requires mode != Lenient && Scan(t, mode).Good?
    ensures t == Text(mode == Url, Scan(t, mode).vs) + Equals(Scan(t, mode).pads)
  {
    hide Value, Alphabet, IsSpace, Accept;
    if |t| == 0 {
    } else {
      var front, c := t[..|t| - 1], t[|t| - 1];
      assert t == front + [c];
      ScannedText(front, mode);
      var Good(vs, pads) := Scan(front, mode);
      AcceptedText(vs, pads, c, mode);
    }
  }

  // ---- main results ----

  lemma {:induction false} CountsFit(k: nat)
    ensures var m := ValueCount(Sextet, k);
            && PaddingAllowed(m, PadCount(m), Standard) && PaddingAllowed(m, PadCount(m), Lenient)
            && PaddingAllowed(m, 0, Url) && PaddingAllowed(m, 0, Lenient)
  {
    if k < 3 {
    } else {
      CountsFit(k - 3);
    }
  }

  lemma {:induction false} ScanEncoded(d: seq<Byte>, url: bool, pad: bool, mode: Mode)
    requires mode == Lenient || (mode == Url <==> url)
    ensures Scan(Encode(d, url, pad), mode) ==
            Good(ToValues(Sextet, d), if pad then PadCount(ValueCount(Sextet, |d|)) else 0)
  {
    hide Scan, ToValues;
    var vs := ToValues(Sextet, d);
    ScanText(url, vs, mode);
    if pad {
      ScanPadded(Text(url, vs), PadCount(|vs|), vs, mode);
    } else {
      assert Encode(d, url, pad) == Text(url, vs);
    }
  }

  /** Any reader accepts its own alphabet's encoding and returns the bytes. */
  lemma {:induction false} RoundTrip(d: seq<Byte>, url: bool, pad: bool, mode: Mode)
    requires mode == Lenient || (mode == Standard && !url && pad) || (mode == Url && url && !pad)
    ensures Decode(Encode(d, url, pad), mode) == Some(d)
  {
    hide Scan, ToValues, ToBytes, Encode, SpareZero, PaddingAllowed, ValueCount, PadCount;
    ScanEncoded(d, url, pad, mode);
    CountsFit(|d|);
    DecodeEncode(Sextet, d);
  }

  lemma {:induction false} StrictCounts(n: nat, pads: nat, url: bool)
    requires PaddingAllowed(n, pads, if url then Url else Standard)
    ensures SpareBits(Sextet, n) < 6
    ensures pads == if url then 0 else PadCount(n)
  {
    SpareOf(n);
    if !url {
      assert (n % 4 + pads) % 4 == 0;
    }
  }

  lemma {:induction false} SpareOf(n: nat)
    ensures SpareBits(Sextet, n) == [0, 6, 4, 2][n % 4]
    ensures ByteCount(Sextet, n + 1) == ByteCount(Sextet, n) + if n % 4 == 0 then 0 else 1
  {
    if n < 4 {
    } else {
      SpareOf(n - 4);
    }
  }

  /** A strict reader accepts nothing but the encoding of what it returns. */
  lemma {:induction false} StrictDecoded(t: string, d: seq<Byte>, url: bool)
    requires Decode(t, if url then Url else Standard) == Some(d)
    ensures t == Encode(d, url, !url)
  {
    var mode := if url then Url else Standard;
    var Good(vs, pads) := Scan(t, mode);
    StrictCounts(|vs|, pads, url);
    EncodeDecode(Sextet, vs);
    assert ToValues(Sextet, d) == vs;
    ScannedText(t, mode);
    if url {
      assert Equals(0) == "";
    }
  }

  /** The strict readers accept exactly the canonical encodings. */
  lemma {:induction false} StrictIsCanonical(t: string, d: seq<Byte>, url: bool)
    ensures Decode(t, if url then Url else Standard) == Some(d) <==> t == Encode(d, url, !url)
  {
    var mode := if url then Url else Standard;
    if Decode(t, mode) == Some(d) {
      StrictDecoded(t, d, url);
    }
    if t == Encode(d, url, !url) {
      RoundTrip(d, url, !url, mode);
    }
  }

  // ---- the encoder's and the decoder's loops ----

  /** Three bytes side by side; a missing one counts as zero. */
  function Triple(a: int, b: int, c: int): int { 65536 * a + 256 * b + c }

  /** One of the four 6-bit fields of a triple. */
  function Pick(v: nat, unit: nat): nat
    requires unit > 0
  {
    v / unit % 64
  }

  /** j zero values appended to n. */
  function Up(n: nat, j: nat): nat {
    if j == 0 then n else 64 * Up(n, j - 1)
  }

  lemma {:induction false} DigitsJoin(n: nat, m: nat, w: nat, j: nat)
    requires Fits(w, 6 * j)
    ensures Digits(Sextet, Up(n, j) + w, m + j) == Digits(Sextet, n, m) + Digits(Sextet, w, j)
  {
    if j == 0 {
    } else {
      HighIsShr(Sextet, w);
      FitsAfterShr(w, 6, 6 * (j - 1));
      assert Sextet.High(Up(n, j) + w) == Up(n, j - 1) + Sextet.High(w);
      DigitsJoin(n, m, Sextet.High(w), j - 1);
    }
  }

  /** The first j of the four fields are the digits of the triple's high part. */
  lemma {:induction false} Fields(v: nat)
    requires v < 16777216
    ensures Digits(Sextet, v, 4) == [Pick(v, 262144), Pick(v, 4096), Pick(v, 64), Pick(v, 1)]
    ensures Digits(Sextet, v / 64, 3) == [Pick(v, 262144), Pick(v, 4096), Pick(v, 64)]
    ensures Digits(Sextet, v / 4096, 2) == [Pick(v, 262144), Pick(v, 4096)]
  {
    assert v / 64 / 64 == v / 4096 && v / 4096 / 64 == v / 262144;
    assert Digits(Sextet, v / 262144, 1) == [Pick(v, 262144)];
    assert Digits(Sextet, v / 4096, 2) == Digits(Sextet, v / 262144, 1) + [Pick(v, 4096)];
    assert Digits(Sextet, v / 64, 3) == Digits(Sextet, v / 4096, 2) + [Pick(v, 64)];
  }

  lemma {:induction false} GroupCounts(i: nat, n: nat)
    requires i % 3 == 0 && i <= n <= i + 3
    ensures PadBits(Sextet, n) == [0, 4, 2, 0][n - i]
    ensures ValueCount(Sextet, n) == ValueCount(Sextet, i) + [0, 2, 3, 4][n - i]
    ensures n > i ==> PadCount(ValueCount(Sextet, n)) == 3 - (n - i)
  {
    if i == 0 {
    } else {
      GroupCounts(i - 3, n - 3);
    }
  }

  lemma {:induction false} BelowFits(v: nat, bits: nat)
    requires v < Shl(1, bits)
    ensures Fits(v, bits)
  {
    if bits == 0 {
    } else {
      BelowFits(v / 2, bits - 1);
    }
  }

  lemma {:induction false} FitsFields(v: nat)
    requires v < 16777216
    ensures Fits(v, 24)
  {
    Shl4(1);
    Shl4(16);
    ShlShl(1, 4, 4);
    Shl4(256);
    ShlShl(1, 4, 8);
    Shl4(4096);
    ShlShl(1, 4, 12);
    Shl4(65536);
    ShlShl(1, 4, 16);
    Shl4(1048576);
    ShlShl(1, 4, 20);
    BelowFits(v, 24);
  }

  lemma {:induction false} FitsHigh(v: nat)
    requires Fits(v, 24)
    ensures Fits(v / 64, 18) && Fits(v / 4096, 12)
  {
    HighIsShr(Sextet, v);
    FitsAfterShr(v, 6, 18);
    HighIsShr(Sextet, v / 64);
    FitsAfterShr(v / 64, 6, 12);
    assert v / 64 / 64 == v / 4096;
  }

  lemma {:induction false} Ups(n: nat)
    ensures Up(n, 2) == 4096 * n && Up(n, 3) == 262144 * n && Up(n, 4) == 16777216 * n
  {
    assert Up(n, 2) == 64 * Up(n, 1) == 64 * (64 * Up(n, 0));
  }

  /** The fields a group of one, two or three bytes emits. */
  function GroupFields(v: nat, bytes: nat): (vs: seq<nat>)
    requires 1 <= bytes <= 3
    ensures AllBelow(64, vs)
  {
    [Pick(v, 262144), Pick(v, 4096)] +
    (if bytes > 1 then [Pick(v, 64)] else []) + (if bytes > 2 then [Pick(v, 1)] else [])
  }

  /** The part of the triple that those fields hold. */
  function GroupPart(v: nat, bytes: nat): nat
    requires 1 <= bytes <= 3
  {
    if bytes == 1 then v / 4096 else if bytes == 2 then v / 64 else v
  }

  lemma {:induction false} PartFields(v: nat, bytes: nat)
    requires v < 16777216 && 1 <= bytes <= 3
    ensures Digits(Sextet, GroupPart(v, bytes), bytes + 1) == GroupFields(v, bytes)
    ensures Fits(GroupPart(v, bytes), 6 * (bytes + 1))
  {
    hide Digits, Fits, Pick;
    Fields(v);
    FitsFields(v);
    FitsHigh(v);
    if bytes == 1 {
      assert GroupFields(v, bytes) == [Pick(v, 262144), Pick(v, 4096)];
    } else if bytes == 2 {
      assert GroupFields(v, bytes) == [Pick(v, 262144), Pick(v, 4096), Pick(v, 64)];
    } else {
      assert GroupFields(v, bytes) == [Pick(v, 262144), Pick(v, 4096), Pick(v, 64), Pick(v, 1)];
    }
  }

  lemma {:induction false} ValuesOf(d: seq<Byte>, x: nat, m: nat)
    requires x == Shl(Num(Octet, d), PadBits(Sextet, |d|)) && m == ValueCount(Sextet, |d|)
    ensures ToValues(Sextet, d) == Digits(Sextet, x, m)
  {
  }

  /** One pass of the encoder's loop, whole or short. */
  lemma {:induction false} EncodeGroup(d: seq<Byte>, i: nat, v: nat)
    requires i % 3 == 0 && i < |d| <= i + 3
    requires v == Triple(d[i], if i + 1 < |d| then d[i + 1] else 0, if i + 2 < |d| then d[i + 2] else 0)
    ensures ToValues(Sextet, d) == ToValues(Sextet, d[..i]) + GroupFields(v, |d| - i)
  {
    hide Num, Digits, Fits, Up, GroupFields, GroupPart;
    var n, m, part, j := Num(Octet, d[..i]), ValueCount(Sextet, i), GroupPart(v, |d| - i), |d| - i + 1;
    assert ToValues(Sextet, d) == Digits(Sextet, Up(n, j) + part, m + j) by {
      GroupCounts(i, |d|);
      GroupNum(d, i, v);
      ValuesOf(d, Up(n, j) + part, m + j);
    }
    assert ToValues(Sextet, d[..i]) == Digits(Sextet, n, m) by {
      GroupCounts(i, i);
      ValuesOf(d[..i], n, m);
    }
    PartFields(v, |d| - i);
    DigitsJoin(n, m, part, j);
  }

  lemma {:induction false} NumPrefix(d: seq<Byte>, j: nat)
    requires j < |d|
    ensures Num(Octet, d[..j + 1]) == 256 * Num(Octet, d[..j]) + d[j]
  {
    assert d[..j + 1] == d[..j] + [d[j]];
    NumSnoc(Octet, d[..j], d[j]);
  }

  lemma {:induction false} GroupNum(d: seq<Byte>, i: nat, v: nat)
    requires i % 3 == 0 && i < |d| <= i + 3
    requires v == Triple(d[i], if i + 1 < |d| then d[i + 1] else 0, if i + 2 < |d| then d[i + 2] else 0)
    ensures Shl(Num(Octet, d), PadBits(Sextet, |d|)) ==
            Up(Num(Octet, d[..i]), |d| - i + 1) + GroupPart(v, |d| - i)
  {
    var n, x := Num(Octet, d[..i]), Num(Octet, d);
    GroupCounts(i, |d|);
    Ups(n);
    assert d[..|d|] == d;
    NumPrefix(d, i);
    if |d| == i + 1 {
      Shl4(x);
    } else if |d| == i + 2 {
      NumPrefix(d, i + 1);
      Shl2(x);
    } else {
      NumPrefix(d, i + 1);
      NumPrefix(d, i + 2);
    }
  }

  lemma {:induction false} Shl2(v: nat)
    ensures Shl(v, 2) == 4 * v
  {
    assert Shl(v, 2) == 2 * Shl(v, 1) == 2 * (2 * Shl(v, 0));
  }

  lemma {:induction false} Shl4(v: nat)
    ensures Shl(v, 4) == 16 * v
  {
    Shl2(v);
    assert Shl(v, 4) == 2 * Shl(v, 3) == 2 * (2 * Shl(v, 2));
  }

  lemma {:induction false} TextAppend(url: bool, a: seq<nat>, b: seq<nat>)
    requires AllBelow(64, a) && AllBelow(64, b)
    ensures AllBelow(64, a + b)
    ensures Text(url, a + b) == Text(url, a) + Text(url, b)
  {
  }

  lemma {:induction false} EncodeStep(d: seq<Byte>, i: nat, end: nat, v: nat, url: bool)
    requires i % 3 == 0 && i < end <= |d| && end == (if i + 3 <= |d| then i + 3 else |d|)
    requires v == Triple(d[i], if i + 1 < |d| then d[i + 1] else 0, if i + 2 < |d| then d[i + 2] else 0)
    ensures Text(url, ToValues(Sextet, d[..end])) ==
            Text(url, ToValues(Sextet, d[..i])) + Text(url, GroupFields(v, end - i))
  {
    assert d[..end][..i] == d[..i];
    EncodeGroup(d[..end], i, v);
    TextAppend(url, ToValues(Sextet, d[..i]), GroupFields(v, end - i));
  }

  lemma {:induction false} EncodeEnd(d: seq<Byte>, i: nat)
    requires i % 3 == 0 && i < |d| <= i + 3
    ensures PadCount(ValueCount(Sextet, |d|)) == 3 - (|d| - i)
  {
    GroupCounts(i, |d|);
  }

  /** The characters of one group, padded when it is short. */
  method EmitGroup(v: nat, bytes: nat, url: bool, pad: bool) returns (b: string)
    requires 1 <= bytes <= 3
    ensures b == Text(url, GroupFields(v, bytes)) + if pad then Equals(3 - bytes) else ""
  {
    b := [Alphabet(url, Pick(v, 262144)), Alphabet(url, Pick(v, 4096))];
    if bytes > 1 {
      b := b + [Alphabet(url, Pick(v, 64))];
    } else if pad {
      b := b + "=";
    }
    if bytes > 2 {
      b := b + [Alphabet(url, Pick(v, 1))];
    } else if pad {
      b := b + "=";
    }
  }

  /** Three bytes at a time; the last group may be short and then padded. */
  method EncodeBytes(d: seq<Byte>, url: bool, pad: bool) returns (b: string)
    ensures b == Encode(d, url, pad)
  {
    b := "";
    var i := 0;
    while i < |d|
      invariant 0 <= i && (i % 3 == 0 || i >= |d|)
      invariant i < |d| ==> b == Text(url, ToValues(Sextet, d[..i]))
      invariant i >= |d| ==> b == Encode(d, url, pad)
    {
      var v := Triple(d[i], if i + 1 < |d| then d[i + 1] else 0, if i + 2 < |d| then d[i + 2] else 0);
      var end := if i + 3 <= |d| then i + 3 else |d|;
      var group := EmitGroup(v, end - i, url, pad);
      EncodeStep(d, i, end, v, url);
      if end == |d| {
        assert d[..end] == d;
        EncodeEnd(d, i);
        assert b + group == Text(url, ToValues(Sextet, d)) + if pad then Equals(3 - (end - i)) else "";
      } else {
        assert Equals(0) == "";
      }
      b := b + group;
      i := i + 3;
    }
  }

  /** One pass over the text; stops at the first character that cannot follow. */
  method ScanLoop(t: string, mode: Mode)
    returns (ok: bool, out: seq<Byte>, acc: nat, bits: nat, count: nat, pads: nat, ghost vs: seq<nat>)
    ensures !ok ==> Scan(t, mode).Bad?
    ensures ok ==> Scan(t, mode) == Good(vs, pads) && count == |vs| && Tracks(Sextet, vs, acc, bits, out)
  {
    hide Tracks, Value;
    ok, out, acc, bits, count, pads, vs := true, [], 0, 0, 0, 0, [];
    TracksNothing(Sextet);
    for i := 0 to |t|
      invariant Scan(t[..i], mode) == Good(vs, pads)
      invariant ok && count == |vs| && Tracks(Sextet, vs, acc, bits, out)
    {
      var c := t[i];
      ScanSnoc(t[..i], c, mode);
      assert t[..i + 1] == t[..i] + [c];
      if mode == Lenient && IsSpace(c) {
        continue;
      }
      if c == '=' {
        pads := pads + 1;
        continue;
      }
      var v := Value(c, mode);
      if pads > 0 || v < 0 {
        ScanStaysBad(t, i + 1, mode);
        ok := false;
        return;
      }
      out, acc, bits := ShiftIn(Sextet, vs, out, acc, bits, v);
      count := count + 1;
      vs := vs + [v];
    }
    assert t[..|t|] == t;
  }

  /**
   * The decoder, whose 32-bit accumulator wraps; the wrapped bits have always
   * been emitted already, so the result is Decode's.
   */
  method DecodeText(t: string, mode: Mode) returns (r: Option<seq<Byte>>)
    ensures r == Decode(t, mode)
  {
    hide Scan, Tracks, ToBytes, SpareZero;
    var ok, out, acc, bits, count, pads;
    ghost var vs;
    ok, out, acc, bits, count, pads, vs := ScanLoop(t, mode);
    if !ok || count % 4 == 1 || (mode == Standard && (count + pads) % 4 != 0) ||
       pads > (if mode == Url then 0 else 2) {
      return None;
    }
    TrackedResult(Sextet, vs, acc, bits, out);
    if mode != Lenient && bits > 0 && !LowZero(acc, bits) {
      return None;
    }
    return Some(out);
  }
}
