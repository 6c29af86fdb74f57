// Positional notation, shared by the base64 and base32 codecs.
//
// A run of 5- or 6-bit values and a run of bytes are both big-endian numerals.
// The encoders and decoders of this repository move bits between the two
// through an accumulator; stated on the numerals, encoding appends zero bits
// (a shift left) and decoding drops the spare ones (a shift right).
module Radix {

  type Byte = x: int | 0 <= x < 256

  /** The digit sizes in use: base32 values, base64 values, bytes. */
  datatype Digit = Quintet | Sextet | Octet {
    function Width(): nat {
      match this case Quintet => 5 case Sextet => 6 case Octet => 8
    }
    function Base(): nat {
      match this case Quintet => 32 case Sextet => 64 case Octet => 256
    }
    function Scale(v: nat): nat {
      match this case Quintet => 32 * v case Sextet => 64 * v case Octet => 256 * v
    }
    function High(v: nat): nat {
      match this case Quintet => v / 32 case Sextet => v / 64 case Octet => v / 256
    }
    function Low(v: nat): (r: nat)
      ensures r < Base() && v == Scale(High(v)) + r
    {
      match this case Quintet => v % 32 case Sextet => v % 64 case Octet => v % 256
    }
  }

  predicate AllBelow(base: nat, ds: seq<nat>) {
    forall i :: 0 <= i < |ds| ==> ds[i] < base
  }

  /** The number a big-endian digit string denotes. */
  function Num(d: Digit, ds: seq<nat>): nat {
    if |ds| == 0 then 0 else d.Scale(Num(d, ds[..|ds| - 1])) + ds[|ds| - 1]
  }

  /** The n low digits of v. */
  function Digits(d: Digit, v: nat, n: nat): (ds: seq<nat>)
    ensures |ds| == n
    ensures AllBelow(d.Base(), ds)
  {
    if n == 0 then [] else Digits(d, d.High(v), n - 1) + [d.Low(v)]
  }

  function Shl(v: nat, n: nat): nat {
    if n == 0 then v else 2 * Shl(v, n - 1)
  }

  function Shr(v: nat, n: nat): nat {
    if n == 0 then v else Shr(v / 2, n - 1)
  }

  /** The n low bits of v are all zero. */
  predicate LowZero(v: nat, n: nat) {
    n == 0 || (v % 2 == 0 && LowZero(v / 2, n - 1))
  }

  /** v has at most n significant bits. */
  predicate Fits(v: nat, n: nat) {
    if n == 0 then v == 0 else Fits(v / 2, n - 1)
  }

  lemma {:induction false} NumSnoc(d: Digit, ds: seq<nat>, x: nat)
    ensures Num(d, ds + [x]) == d.Scale(Num(d, ds)) + x
  {
    assert (ds + [x])[..|ds|] == ds;
  }

  lemma {:induction false} SplitScaled(d: Digit, high: nat, low: nat)
    requires low < d.Base()
    ensures d.High(d.Scale(high) + low) == high && d.Low(d.Scale(high) + low) == low
  {
  }

  lemma {:induction false} DigitsOfNum(d: Digit, ds: seq<nat>)
    requires AllBelow(d.Base(), ds)
    ensures Digits(d, Num(d, ds), |ds|) == ds
  {
    if |ds| == 0 {
    } else {
      var front, last := ds[..|ds| - 1], ds[|ds| - 1];
      DigitsOfNum(d, front);
      assert last < d.Base();
      SplitScaled(d, Num(d, front), last);
      assert ds == front + [last];
    }
  }

  lemma {:induction false} HighIsShr(d: Digit, v: nat)
    ensures Shr(v, d.Width()) == d.High(v)
  {
    match d {
      case Quintet => ShrUnroll(v, 5);
      case Sextet => ShrUnroll(v, 6);
      case Octet => ShrUnroll(v, 8);
    }
  }

  lemma {:induction false} ShrUnroll(v: nat, n: nat)
    requires n == 5 || n == 6 || n == 8
    ensures n == 5 ==> Shr(v, n) == v / 32
    ensures n == 6 ==> Shr(v, n) == v / 64
    ensures n == 8 ==> Shr(v, n) == v / 256
  {
    assert Shr(v, n) == Shr(v / 2 / 2 / 2, n - 3) by {
      assert Shr(v, n) == Shr(v / 2, n - 1);
      assert Shr(v / 2, n - 1) == Shr(v / 2 / 2, n - 2);
    }
    assert v / 2 / 2 / 2 == v / 8;
    var w := v / 8;
    if n == 5 {
      assert Shr(w, 2) == Shr(w / 2, 1) == w / 2 / 2;
    } else if n == 6 {
      assert Shr(w, 3) == Shr(w / 2, 2) == Shr(w / 2 / 2, 1) == w / 2 / 2 / 2;
    } else {
      assert Shr(w, 5) == Shr(w / 2, 4) == Shr(w / 2 / 2, 3) == Shr(w / 2 / 2 / 2, 2) == Shr(w / 2 / 2 / 2 / 2, 1);
      assert Shr(w / 2 / 2 / 2 / 2, 1) == w / 2 / 2 / 2 / 2 / 2;
    }
  }

  lemma {:induction false} FitsAfterShr(v: nat, a: nat, b: nat)
    ensures Fits(v, a + b) <==> Fits(Shr(v, a), b)
    decreases a
  {
    if a == 0 {
    } else {
      FitsAfterShr(v / 2, a - 1, b);
    }
  }

  lemma {:induction false} NumFits(d: Digit, ds: seq<nat>)
    requires AllBelow(d.Base(), ds)
    ensures Fits(Num(d, ds), d.Width() * |ds|)
  {
    if |ds| == 0 {
    } else {
      var front, last := ds[..|ds| - 1], ds[|ds| - 1];
      NumFits(d, front);
      assert last < d.Base();
      HighIsShr(d, Num(d, ds));
      assert d.High(Num(d, ds)) == Num(d, front);
      FitsAfterShr(Num(d, ds), d.Width(), d.Width() * |front|);
      assert d.Width() * |ds| == d.Width() + d.Width() * |front|;
    }
  }

  lemma {:induction false} NumOfDigits(d: Digit, v: nat, n: nat)
    requires Fits(v, d.Width() * n)
    ensures Num(d, Digits(d, v, n)) == v
  {
    if n == 0 {
    } else {
      HighIsShr(d, v);
      assert d.Width() * n == d.Width() + d.Width() * (n - 1);
      FitsAfterShr(v, d.Width(), d.Width() * (n - 1));
      NumOfDigits(d, d.High(v), n - 1);
      NumSnoc(d, Digits(d, d.High(v), n - 1), d.Low(v));
    }
  }

  lemma {:induction false} ShlShr(v: nat, n: nat)
    ensures Shr(Shl(v, n), n) == v
    ensures LowZero(Shl(v, n), n)
    ensures Shl(v, n) / 2 == if n == 0 then v / 2 else Shl(v, n - 1)
  {
    if n == 0 {
    } else {
      ShlShr(v, n - 1);
    }
  }

  lemma {:induction false} ShrShl(v: nat, n: nat)
    requires LowZero(v, n)
    ensures Shl(Shr(v, n), n) == v
  {
    if n == 0 {
    } else {
      ShrShl(v / 2, n - 1);
    }
  }

  lemma {:induction false} FitsShl(v: nat, bits: nat, n: nat)
    requires Fits(v, bits)
    ensures Fits(Shl(v, n), bits + n)
  {
    if n == 0 {
    } else {
      FitsShl(v, bits, n - 1);
    }
  }

  // ---- values and bytes ----

  // Bytes and values line up again every `GroupBytes` bytes, which is every
  // `GroupValues` values; within a group the counts are those of RFC 4648.

  /** The number of whole bytes in n values. */
  function ByteCount(d: Digit, n: nat): nat {
    match d
    case Quintet => if n < 8 then [0, 0, 1, 1, 2, 3, 3, 4][n] else 5 + ByteCount(d, n - 8)
    case Sextet => if n < 4 then [0, 0, 1, 2][n] else 3 + ByteCount(d, n - 4)
    case Octet => n
  }

  /** The bits n values hold beyond whole bytes. */
  function SpareBits(d: Digit, n: nat): nat {
    match d
    case Quintet => if n < 8 then [0, 5, 2, 7, 4, 1, 6, 3][n] else SpareBits(d, n - 8)
    case Sextet => if n < 4 then [0, 6, 4, 2][n] else SpareBits(d, n - 4)
    case Octet => 0
  }

  /** The fewest values that hold k bytes. */
  function ValueCount(d: Digit, k: nat): nat {
    match d
    case Quintet => if k < 5 then [0, 2, 4, 5, 7][k] else 8 + ValueCount(d, k - 5)
    case Sextet => if k < 3 then [0, 2, 3][k] else 4 + ValueCount(d, k - 3)
    case Octet => k
  }

  /** The zero bits those values add. */
  function PadBits(d: Digit, k: nat): nat {
    match d
    case Quintet => if k < 5 then [0, 2, 4, 1, 3][k] else PadBits(d, k - 5)
    case Sextet => if k < 3 then [0, 4, 2][k] else PadBits(d, k - 3)
    case Octet => 0
  }

  /** The tables keep every bit. */
  lemma {:induction false} ValueBits(d: Digit, k: nat)
    ensures d.Width() * ValueCount(d, k) == 8 * k + PadBits(d, k)
    ensures PadBits(d, k) < d.Width()
  {
    if d.Quintet? && k >= 5 {
      ValueBits(d, k - 5);
    } else if d.Sextet? && k >= 3 {
      ValueBits(d, k - 3);
    }
  }

  lemma {:induction false} ByteBits(d: Digit, n: nat)
    ensures d.Width() * n == 8 * ByteCount(d, n) + SpareBits(d, n)
    ensures SpareBits(d, n) < 8
  {
    if d.Quintet? && n >= 8 {
      ByteBits(d, n - 8);
    } else if d.Sextet? && n >= 4 {
      ByteBits(d, n - 4);
    }
  }

  /** An encoding's values hold exactly the bytes it came from. */
  lemma {:induction false} CountsInvert(d: Digit, k: nat)
    ensures ByteCount(d, ValueCount(d, k)) == k
    ensures SpareBits(d, ValueCount(d, k)) == PadBits(d, k)
  {
    if d.Quintet? && k >= 5 {
      CountsInvert(d, k - 5);
    } else if d.Sextet? && k >= 3 {
      CountsInvert(d, k - 3);
    }
  }

  /** Values whose spare bits are fewer than one value are as few as possible. */
  lemma {:induction false} CountsReturn(d: Digit, n: nat)
    ensures ValueCount(d, ByteCount(d, n)) == n <==> SpareBits(d, n) < d.Width()
    ensures SpareBits(d, n) < d.Width() ==> PadBits(d, ByteCount(d, n)) == SpareBits(d, n)
  {
    if d.Quintet? && n >= 8 {
      CountsReturn(d, n - 8);
    } else if d.Sextet? && n >= 4 {
      CountsReturn(d, n - 4);
    }
  }

  /** What an encoder must produce: the bytes' numeral with zero bits appended. */
  function ToValues(d: Digit, bytes: seq<Byte>): (vs: seq<nat>)
    ensures |vs| == ValueCount(d, |bytes|)
    ensures AllBelow(d.Base(), vs)
  {
    Digits(d, Shl(Num(Octet, bytes), PadBits(d, |bytes|)), ValueCount(d, |bytes|))
  }

  /** What a decoder must produce: the values' numeral without its spare bits. */
  function ToBytes(d: Digit, vs: seq<nat>): (bytes: seq<Byte>)
    ensures |bytes| == ByteCount(d, |vs|)
  {
    AsBytes(Digits(Octet, Shr(Num(d, vs), SpareBits(d, |vs|)), ByteCount(d, |vs|)))
  }

  function AsBytes(ds: seq<nat>): (b: seq<Byte>)
    requires AllBelow(256, ds)
    ensures b == ds
  {
    seq(|ds|, i requires 0 <= i < |ds| => assert ds[i] < 256; ds[i])
  }

  predicate SpareZero(d: Digit, vs: seq<nat>) {
    LowZero(Num(d, vs), SpareBits(d, |vs|))
  }

  /** The numeral the encoder emits is the bytes' numeral shifted left. */
  lemma {:induction false} ToValuesNum(d: Digit, bytes: seq<Byte>)
    ensures Num(d, ToValues(d, bytes)) == Shl(Num(Octet, bytes), PadBits(d, |bytes|))
  {
    hide Num, Digits, Shl, Shr, LowZero, Fits, ByteCount, ValueCount, SpareBits, PadBits;
    var k := |bytes|;
    NumFits(Octet, bytes);
    FitsShl(Num(Octet, bytes), 8 * k, PadBits(d, k));
    ValueBits(d, k);
    NumOfDigits(d, Shl(Num(Octet, bytes), PadBits(d, k)), ValueCount(d, k));
  }

  /** Decoding inverts encoding. */
  lemma {:induction false} DecodeEncode(d: Digit, bytes: seq<Byte>)
    ensures SpareZero(d, ToValues(d, bytes))
    ensures ToBytes(d, ToValues(d, bytes)) == bytes
  {
    hide Num, Digits, Shl, Shr, LowZero, Fits, ByteCount, ValueCount, SpareBits, PadBits;
    ToValuesNum(d, bytes);
    CountsInvert(d, |bytes|);
    ShlShr(Num(Octet, bytes), PadBits(d, |bytes|));
    DigitsOfNum(Octet, bytes);
  }

  /**
   * Exactly which value runs are canonical: one whose spare bits are zero is
   * the encoding of what it decodes to if and only if the spare bits are fewer
   * than one value.
   */
  lemma {:induction false} EncodeDecode(d: Digit, vs: seq<nat>)
    requires AllBelow(d.Base(), vs)
    requires SpareZero(d, vs)
    ensures ToValues(d, ToBytes(d, vs)) == vs <==> SpareBits(d, |vs|) < d.Width()
  {
    hide Num, Digits, Shl, Shr, LowZero, Fits, ByteCount, ValueCount, SpareBits, PadBits;
    var k, spare := ByteCount(d, |vs|), SpareBits(d, |vs|);
    CountsReturn(d, |vs|);
    if spare < d.Width() {
      ByteBits(d, |vs|);
      NumFits(d, vs);
      FitsAfterShr(Num(d, vs), spare, 8 * k);
      NumOfDigits(Octet, Shr(Num(d, vs), spare), k);
      ShrShl(Num(d, vs), spare);
      DigitsOfNum(d, vs);
    }
  }

  // ---- accumulators ----
  //
  // Both directions keep a 32-bit accumulator of everything read so far and a
  // count of the low bits not yet emitted.  The accumulator wraps; the wrapped
  // bits have always been emitted already.

  const WORD: nat := 0x1_0000_0000

  lemma {:induction false} ShrShr(v: nat, a: nat, b: nat)
    ensures Shr(Shr(v, a), b) == Shr(v, a + b)
    decreases a
  {
    if a == 0 {
    } else {
      ShrShr(v / 2, a - 1, b);
    }
  }

  /** Reading one more digit moves the bits already emitted up by its width. */
  lemma {:induction false} FeedDigit(d: Digit, v: nat, x: nat, bits: nat)
    requires x < d.Base()
    ensures Shr(d.Scale(v) + x, d.Width() + bits) == Shr(v, bits)
  {
    HighIsShr(d, d.Scale(v) + x);
    ShrShr(d.Scale(v) + x, d.Width(), bits);
  }

  /** What is left after emitting all but `bits` bits ends in the next digit. */
  lemma {:induction false} SplitDigit(d: Digit, v: nat, bits: nat)
    ensures Shr(v, bits) == d.Scale(Shr(v, bits + d.Width())) + d.Low(Shr(v, bits))
  {
    HighIsShr(d, Shr(v, bits));
    ShrShr(v, bits, d.Width());
  }

  lemma {:induction false} ShrAdd(y: nat, k: nat, b: nat, c: nat)
    ensures Shr(y + Shl(k, b + c), b) == Shr(y, b) + Shl(k, c)
    decreases b
  {
    if b == 0 {
    } else {
      assert (y + Shl(k, b + c)) / 2 == y / 2 + Shl(k, b + c - 1);
      ShrAdd(y / 2, k, b - 1, c);
    }
  }

  lemma {:induction false} LowZeroAdd(y: nat, k: nat, b: nat, c: nat)
    ensures LowZero(y + Shl(k, b + c), b) <==> LowZero(y, b)
    decreases b
  {
    if b == 0 {
    } else {
      assert (y + Shl(k, b + c)) / 2 == y / 2 + Shl(k, b + c - 1);
      assert (y + Shl(k, b + c)) % 2 == y % 2;
      LowZeroAdd(y / 2, k, b - 1, c);
    }
  }

  lemma {:induction false} ShlShl(v: nat, a: nat, b: nat)
    ensures Shl(v, a + b) == Shl(Shl(v, b), a)
    decreases a
  {
    if a == 0 {
    } else {
      ShlShl(v, a - 1, b);
    }
  }

  lemma {:induction false} ScaleIsShl(d: Digit, v: nat)
    ensures Shl(v, d.Width()) == d.Scale(v)
  {
    assert Shl(v, 3) == 2 * Shl(v, 2) == 2 * (2 * Shl(v, 1)) == 8 * v;
    var w := Shl(v, 3);
    match d {
      case Quintet =>
        ShlShl(v, 2, 3);
        assert Shl(w, 2) == 2 * Shl(w, 1) == 4 * w;
      case Sextet =>
        ShlShl(v, 3, 3);
        assert Shl(w, 3) == 2 * Shl(w, 2) == 2 * (2 * Shl(w, 1)) == 8 * w;
      case Octet =>
        ShlShl(v, 5, 3);
        assert Shl(w, 5) == 2 * Shl(w, 4) == 2 * (2 * Shl(w, 3)) == 4 * Shl(w, 3);
        assert Shl(w, 3) == 2 * Shl(w, 2) == 2 * (2 * Shl(w, 1)) == 8 * w;
    }
  }

  lemma {:induction false} WordIsShl(k: nat)
    ensures Shl(k, 32) == WORD * k
  {
    ScaleIsShl(Octet, k);
    ScaleIsShl(Octet, 256 * k);
    ShlShl(k, 8, 8);
    ScaleIsShl(Octet, 65536 * k);
    ShlShl(k, 8, 16);
    ScaleIsShl(Octet, 0x100_0000 * k);
    ShlShl(k, 8, 24);
  }

  lemma {:induction false} WrapSplit(v: nat) returns (k: nat)
    ensures v == v % WORD + Shl(k, 32)
  {
    k := v / WORD;
    WordIsShl(k);
  }

  /** Wrapping does not touch a digit that ends within the word. */
  lemma {:induction false} WrapKeepsDigit(d: Digit, v: nat, bits: nat)
    requires bits + d.Width() <= 32
    ensures d.Low(Shr(v % WORD, bits)) == d.Low(Shr(v, bits))
  {
    var k := WrapSplit(v);
    ShrAdd(v % WORD, k, bits, 32 - bits);
    ShlShl(k, d.Width(), 32 - bits - d.Width());
    ScaleIsShl(d, Shl(k, 32 - bits - d.Width()));
    LowDrops(d, Shr(v % WORD, bits), Shl(k, 32 - bits - d.Width()));
  }

  lemma {:induction false} LowDrops(d: Digit, y: nat, z: nat)
    ensures d.Low(y + d.Scale(z)) == d.Low(y)
  {
    SameSplit(d, d.High(y) + z, d.Low(y), d.High(y + d.Scale(z)), d.Low(y + d.Scale(z)));
  }

  lemma {:induction false} SameSplit(d: Digit, q: nat, r: nat, q': nat, r': nat)
    requires r < d.Base() && r' < d.Base() && d.Scale(q) + r == d.Scale(q') + r'
    ensures q == q' && r == r'
  {
  }

  lemma {:induction false} WrapKeepsZeros(v: nat, bits: nat)
    requires bits <= 32
    ensures LowZero(v % WORD, bits) <==> LowZero(v, bits)
  {
    var k := WrapSplit(v);
    LowZeroAdd(v % WORD, k, bits, 32 - bits);
  }

  lemma {:induction false} DropWords(q: nat, r: nat)
    ensures (WORD * q + r) % WORD == r % WORD
  {
  }

  lemma {:induction false} WrapFeed(d: Digit, v: nat, x: nat)
    ensures (d.Scale(v % WORD) + x) % WORD == (d.Scale(v) + x) % WORD
  {
    var q, r := v / WORD, v % WORD;
    assert v == WORD * q + r;
    DropWords(d.Scale(q), d.Scale(r) + x);
  }

  /** A decoder's loop invariant: its output and spare bits, read off the numeral. */
  predicate Tracks(d: Digit, vs: seq<nat>, acc: nat, bits: nat, out: seq<Byte>) {
    && acc == Num(d, vs) % WORD
    && bits == SpareBits(d, |vs|)
    && |out| == ByteCount(d, |vs|)
    && Num(Octet, out) == Shr(Num(d, vs), bits)
  }

  lemma {:induction false} TracksNothing(d: Digit)
    ensures Tracks(d, [], 0, 0, [])
  {
  }

  lemma {:induction false} SpareStep(d: Digit, n: nat)
    ensures var bits := SpareBits(d, n) + d.Width();
            if bits < 8
            then SpareBits(d, n + 1) == bits && ByteCount(d, n + 1) == ByteCount(d, n)
            else SpareBits(d, n + 1) == bits - 8 && ByteCount(d, n + 1) == ByteCount(d, n) + 1
  {
    if d.Quintet? && n >= 8 {
      SpareStep(d, n - 8);
    } else if d.Sextet? && n >= 4 {
      SpareStep(d, n - 4);
    } else if (d.Quintet? && n == 7) || (d.Sextet? && n == 3) {
      assert ByteCount(d, 0) == 0 && SpareBits(d, 0) == 0;
    }
  }

  lemma {:induction false} TrackWait(d: Digit, vs: seq<nat>, acc: nat, bits: nat, out: seq<Byte>, v: nat)
    requires v < d.Base() && Tracks(d, vs, acc, bits, out) && bits + d.Width() < 8
    ensures Tracks(d, vs + [v], (d.Scale(acc) + v) % WORD, bits + d.Width(), out)
  {
    hide Num, Digits, Shl, Shr, LowZero, Fits, ByteCount, ValueCount, SpareBits, PadBits;
    NumSnoc(d, vs, v);
    SpareStep(d, |vs|);
    WrapFeed(d, Num(d, vs), v);
    FeedDigit(d, Num(d, vs), v, bits);
  }

  lemma {:induction false} TrackEmit(d: Digit, vs: seq<nat>, acc: nat, bits: nat, out: seq<Byte>, v: nat)
    requires v < d.Base() && Tracks(d, vs, acc, bits, out) && bits + d.Width() >= 8
    ensures var acc', bits' := (d.Scale(acc) + v) % WORD, bits + d.Width() - 8;
            Tracks(d, vs + [v], acc', bits', out + [Octet.Low(Shr(acc', bits'))])
  {
    hide Num, Digits, Shl, Shr, LowZero, Fits, ByteCount, ValueCount, SpareBits, PadBits;
    var n, bits' := Num(d, vs), bits + d.Width() - 8;
    var b := Octet.Low(Shr((d.Scale(acc) + v) % WORD, bits'));
    assert (d.Scale(acc) + v) % WORD == (d.Scale(n) + v) % WORD by {
      WrapFeed(d, n, v);
    }
    assert Shr(d.Scale(n) + v, bits') == 256 * Shr(n, bits) + b by {
      ByteBits(d, |vs|);
      FeedDigit(d, n, v, bits);
      WrapKeepsDigit(Octet, d.Scale(n) + v, bits');
      SplitDigit(Octet, d.Scale(n) + v, bits');
    }
    NumSnoc(d, vs, v);
    NumSnoc(Octet, out, b);
    SpareStep(d, |vs|);
  }

  /** Takes one value in and emits a byte once eight bits wait. */
  method ShiftIn(d: Digit, ghost vs: seq<nat>, out: seq<Byte>, acc: nat, bits: nat, v: nat)
    returns (out': seq<Byte>, acc': nat, bits': nat)
    requires v < d.Base() && Tracks(d, vs, acc, bits, out)
    ensures Tracks(d, vs + [v], acc', bits', out')
    ensures out' == out || (|out'| == |out| + 1 && out'[..|out|] == out)
  {
    acc' := (d.Scale(acc) + v) % WORD;
    bits' := bits + d.Width();
    out' := out;
    if bits' >= 8 {
      TrackEmit(d, vs, acc, bits, out, v);
      bits' := bits' - 8;
      out' := out + [Octet.Low(Shr(acc', bits'))];
    } else {
      TrackWait(d, vs, acc, bits, out, v);
    }
  }

  /** At the end the output is what the values denote, and the spare bits test as SpareZero. */
  lemma {:induction false} TrackedResult(d: Digit, vs: seq<nat>, acc: nat, bits: nat, out: seq<Byte>)
    requires Tracks(d, vs, acc, bits, out)
    ensures out == ToBytes(d, vs)
    ensures SpareZero(d, vs) <==> LowZero(acc, bits)
  {
    hide Num, Digits, Shl, Shr, LowZero, Fits, ByteCount, ValueCount, SpareBits, PadBits;
    DigitsOfNum(Octet, out);
    ByteBits(d, |vs|);
    WrapKeepsZeros(Num(d, vs), bits);
  }
}
