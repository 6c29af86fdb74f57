// Base32 TOTP secrets (c/src/auth_security.c): a generator that writes 32
// characters from 20 random bytes and the reader every code check goes through.
module Base32 {
  import opened Common
  import opened Radix

  const MAX_OUTPUT: nat := 80

  function Symbol(v: nat): char
    requires v < 32
  {
    if v < 26 then (v + 'A' as int) as char else (v - 26 + '2' as int) as char
  }

  function SymbolValue(c: char): (v: int)
    ensures -1 <= v < 32
  {
    if 'A' <= c <= 'Z' then c as int - 'A' as int
    else if '2' <= c <= '7' then c as int - '2' as int + 26
    else -1
  }

  function Symbols(vs: seq<nat>): (t: string)
    requires AllBelow(32, vs)
    ensures |t| == |vs|
  {
    seq(|vs|, i requires 0 <= i < |vs| => assert vs[i] < 32; Symbol(vs[i]))
  }

  predicate AllSymbols(t: string) {
    forall i :: 0 <= i < |t| ==> SymbolValue(t[i]) >= 0
  }

  function SymbolValues(t: string): (vs: seq<nat>)
    requires AllSymbols(t)
    ensures |vs| == |t| && AllBelow(32, vs)
    ensures forall i :: 0 <= i < |t| ==> vs[i] == SymbolValue(t[i])
  {
    seq(|t|, i requires 0 <= i < |t| => assert SymbolValue(t[i]) >= 0; SymbolValue(t[i]) as nat)
  }

  /** The unpadded encoding of RFC 4648, section 6. */
  function Encode32(d: seq<Byte>): string { Symbols(ToValues(Quintet, d)) }

  /** What the reader accepts: 16 to 128 symbols whose spare bits are zero. */
  function Decode32(t: string): Option<seq<Byte>> {
    if 16 <= |t| <= 128 && AllSymbols(t) && SpareZero(Quintet, SymbolValues(t))
    then Some(ToBytes(Quintet, SymbolValues(t)))
    else None
  }

  lemma {:induction false} SymbolsInvert(vs: seq<nat>)
    requires AllBelow(32, vs)
    ensures AllSymbols(Symbols(vs)) && SymbolValues(Symbols(vs)) == vs
  {
  }

  lemma {:induction false} ValuesInvert(t: string)
    requires AllSymbols(t)
    ensures Symbols(SymbolValues(t)) == t
  {
    forall i | 0 <= i < |t|
      ensures Symbols(SymbolValues(t))[i] == t[i]
    {
      assert SymbolValue(t[i]) >= 0;
    }
  }

  /** Every secret of 10 to 80 bytes, so every generated one, reads back. */
  lemma {:induction false} SecretRoundTrip(d: seq<Byte>)
    requires 10 <= |d| <= 80
    ensures Decode32(Encode32(d)) == Some(d)
  {
    SymbolsInvert(ToValues(Quintet, d));
    DecodeEncode(Quintet, d);
    ValueBits(Quintet, |d|);
  }

  /**
   * The reader never writes past its 80-byte buffer, and an accepted text is
   * the encoding of its bytes unless it carries a surplus all-zero symbol.
   */
  lemma {:induction false} DecodedIsBounded(t: string)
    requires Decode32(t).Some?
    ensures |Decode32(t).value| <= MAX_OUTPUT
    ensures Encode32(Decode32(t).value) == t <==> |t| % 8 !in {1, 3, 6}
  {
    var vs := SymbolValues(t);
    ByteBits(Quintet, |vs|);
    EncodeDecode(Quintet, vs);
    ValuesInvert(t);
    SpareTable(|t|);
    if ToValues(Quintet, ToBytes(Quintet, vs)) != vs {
      SymbolsInvert(ToValues(Quintet, ToBytes(Quintet, vs)));
    }
  }

  lemma {:induction false} SpareTable(n: nat)
    ensures SpareBits(Quintet, n) == [0, 5, 2, 7, 4, 1, 6, 3][n % 8]
  {
    if n < 8 {
    } else {
      SpareTable(n - 8);
    }
  }

  /** Two different texts that read as the same secret. */
  lemma {:induction false} SurplusSymbolAccepted()
    ensures Decode32("AAAAAAAAAAAAAAAA") == Decode32("AAAAAAAAAAAAAAAAA")
    ensures Decode32("AAAAAAAAAAAAAAAA").Some?
  {
    ZeroText("AAAAAAAAAAAAAAAA");
    ZeroText("AAAAAAAAAAAAAAAAA");
  }

  lemma {:induction false} ZeroText(t: string)
    requires 16 <= |t| <= 17 && forall i :: 0 <= i < |t| ==> t[i] == 'A'
    ensures Decode32(t) == Some(seq(10, _ => 0))
  {
    var vs := SymbolValues(t);
    ZeroNum(Quintet, vs);
    ZeroBits(SpareBits(Quintet, |vs|));
    assert ByteCount(Quintet, |t|) == 10 by {
      assert ByteCount(Quintet, |t|) == 10 + ByteCount(Quintet, |t| - 16) by {
        assert ByteCount(Quintet, |t|) == 5 + ByteCount(Quintet, |t| - 8);
      }
    }
    ZeroNum(Octet, seq<nat>(10, _ => 0));
    DigitsOfNum(Octet, seq<nat>(10, _ => 0));
  }

  lemma {:induction false} ZeroNum(d: Digit, vs: seq<nat>)
    requires forall i :: 0 <= i < |vs| ==> vs[i] == 0
    ensures Num(d, vs) == 0
  {
    if |vs| == 0 {
    } else {
      ZeroNum(d, vs[..|vs| - 1]);
    }
  }

  lemma {:induction false} ZeroBits(n: nat)
    ensures LowZero(0, n) && Shr(0, n) == 0
  {
    if n == 0 {
    } else {
      ZeroBits(n - 1);
    }
  }

  // ---- the loops ----

  /**
   * The reader: one pass with a wrapping accumulator into a fixed buffer of 80
   * bytes, which holds the secret when the text is accepted.
   */
  method DecodeSecret(t: string, buffer: array<Byte>) returns (ok: bool, written: nat)
    requires buffer.Length == MAX_OUTPUT
    modifies buffer
    ensures ok <==> Decode32(t).Some?
    ensures ok ==> written <= MAX_OUTPUT && buffer[..written] == Decode32(t).value
  {
    hide Tracks, SymbolValue, ToBytes, SpareZero;
    TracksNothing(Quintet);
    ok, written := false, 0;
    if |t| < 16 || |t| > 128 {
      return;
    }
    var acc: nat, bits: nat := 0, 0;
    ghost var vs: seq<nat> := [];
    for i := 0 to |t|
      invariant AllSymbols(t[..i]) && vs == SymbolValues(t[..i])
      invariant written <= MAX_OUTPUT && Tracks(Quintet, vs, acc, bits, buffer[..written])
    {
      var v := SymbolValue(t[i]);
      if v < 0 {
        return;
      }
      assert t[..i + 1] == t[..i] + [t[i]];
      var out;
      out, acc, bits := ShiftIn(Quintet, vs, buffer[..written], acc, bits, v);
      vs := vs + [v];
      ByteBits(Quintet, |vs|);
      if |out| > written {
        buffer[written] := out[written];
        written := written + 1;
      }
      assert buffer[..written] == out;
    }
    assert t[..|t|] == t;
    TrackedResult(Quintet, vs, acc, bits, buffer[..written]);
    ok := bits == 0 || LowZero(acc, bits);
  }

  /** The generator's loop invariant: the symbols are the numeral's high digits. */
  predicate Emitting(d: seq<Byte>, acc: nat, bits: nat, vs: seq<nat>) {
    && acc == Num(Octet, d) % WORD
    && 5 * |vs| + bits == 8 * |d|
    && AllBelow(32, vs)
    && Num(Quintet, vs) == Shr(Num(Octet, d), bits)
  }

  lemma {:induction false} EmitSymbol(d: seq<Byte>, acc: nat, bits: nat, vs: seq<nat>)
    requires Emitting(d, acc, bits, vs) && 5 <= bits < 13
    ensures Emitting(d, acc, bits - 5, vs + [Quintet.Low(Shr(acc, bits - 5))])
  {
    var n := Num(Octet, d);
    SplitDigit(Quintet, n, bits - 5);
    WrapKeepsDigit(Quintet, n, bits - 5);
    NumSnoc(Quintet, vs, Quintet.Low(Shr(acc, bits - 5)));
  }

  lemma {:induction false} EmitFeed(d: seq<Byte>, acc: nat, bits: nat, vs: seq<nat>, b: Byte)
    requires Emitting(d, acc, bits, vs)
    ensures Emitting(d + [b], (256 * acc + b) % WORD, bits + 8, vs)
  {
    NumSnoc(Octet, d, b);
    WrapFeed(Octet, Num(Octet, d), b);
    FeedDigit(Octet, Num(Octet, d), b, bits);
  }

  /** Twenty random bytes become 32 symbols, the encoding of exactly those bytes. */
  method NewSecret(raw: seq<Byte>) returns (secret: string)
    requires |raw| == 20
    ensures |secret| == 32 && secret == Encode32(raw)
  {
    secret := "";
    var acc: nat, bits: nat := 0, 0;
    ghost var vs: seq<nat> := [];
    for i := 0 to |raw|
      invariant bits < 5 && Emitting(raw[..i], acc, bits, vs)
      invariant secret == Symbols(vs)
    {
      EmitFeed(raw[..i], acc, bits, vs, raw[i]);
      assert raw[..i + 1] == raw[..i] + [raw[i]];
      acc := (256 * acc + raw[i] as int) % WORD;
      bits := bits + 8;
      while bits >= 5
        invariant bits < 13 && Emitting(raw[..i + 1], acc, bits, vs)
        invariant secret == Symbols(vs)
      {
        EmitSymbol(raw[..i + 1], acc, bits, vs);
        bits := bits - 5;
        secret := secret + [Symbol(Quintet.Low(Shr(acc, bits)))];
        vs := vs + [Quintet.Low(Shr(acc, bits))];
      }
    }
    assert raw[..20] == raw;
    FinishedSecret(raw, acc, bits, vs);
  }

  lemma {:induction false} FinishedSecret(raw: seq<Byte>, acc: nat, bits: nat, vs: seq<nat>)
    requires |raw| == 20 && bits < 5 && Emitting(raw, acc, bits, vs)
    ensures |vs| == 32 && vs == ToValues(Quintet, raw)
  {
    assert ValueCount(Quintet, 20) == 8 + ValueCount(Quintet, 15);
    assert ValueCount(Quintet, 15) == 8 + ValueCount(Quintet, 10);
    assert PadBits(Quintet, 20) == PadBits(Quintet, 15) == PadBits(Quintet, 10);
    assert ValueCount(Quintet, 10) == 16 && PadBits(Quintet, 10) == 0 by {
      assert ValueCount(Quintet, 10) == 8 + ValueCount(Quintet, 5);
    }
    assert Shl(Num(Octet, raw), 0) == Num(Octet, raw);
    DigitsOfNum(Quintet, vs);
  }
}
