// Frames of RFC 6455 as the relay reads and writes them (c/src/clash_websocket.c).
module WebSocketFrames {
  import opened Common

  const MAX_MESSAGE_BYTES: nat := 64 * 1024 * 1024
  const MAX_CONTROL: nat := 125
  const MAX_HEAD: nat := 14

  const CONTINUATION: bv8 := 0
  const TEXT: bv8 := 1
  const BINARY: bv8 := 2
  const CLOSE: bv8 := 8
  const PING: bv8 := 9
  const PONG: bv8 := 10

  datatype Frame = Frame(opcode: bv8, fin: bool, payload: seq<bv8>)
  datatype Parse = Incomplete | Oversized | Parsed(frame: Frame, used: nat)

  // ---- lengths ----

  function BigEndian(s: seq<bv8>): nat {
    if |s| == 0 then 0 else BigEndian(s[..|s| - 1]) * 256 + s[|s| - 1] as nat
  }

  function Digits(n: nat, k: nat): (s: seq<bv8>)
    ensures |s| == k
  {
    if k == 0 then [] else Digits(n / 256, k - 1) + [(n % 256) as bv8]
  }

  function Pow256(k: nat): nat { if k == 0 then 1 else 256 * Pow256(k - 1) }

  lemma {:induction false} NextByte(b: bv8)
    requires b != 255
    ensures (b + 1) as nat == b as nat + 1
  {
  }

  lemma {:induction false} ByteFor(n: nat) returns (b: bv8)
    requires n < 256
    ensures b as nat == n
  {
    if n == 0 {
      b := 0;
    } else {
      var c := ByteFor(n - 1);
      assert c != 255;
      NextByte(c);
      b := c + 1;
    }
  }

  lemma {:induction false} ByteAgain(b: bv8)
    ensures (b as nat) as bv8 == b
  {
  }

  lemma {:induction false} ByteOf(n: nat)
    requires n < 256
    ensures (n as bv8) as nat == n
  {
    var b := ByteFor(n);
    ByteAgain(b);
  }

  lemma {:induction false} DigitsOfLength(n: nat, k: nat)
    requires n < Pow256(k)
    ensures BigEndian(Digits(n, k)) == n
  {
    if k == 0 {
    } else {
      DigitsOfLength(n / 256, k - 1);
      ByteOf(n % 256);
      var s := Digits(n, k);
      assert s[..k - 1] == Digits(n / 256, k - 1);
    }
  }

  // ---- masking ----

  function Unmask(s: seq<bv8>, mask: seq<bv8>): (r: seq<bv8>)
    requires |mask| == 4
    ensures |r| == |s|
    ensures forall i :: 0 <= i < |s| ==> r[i] == s[i] ^ mask[i % 4]
  {
    seq(|s|, i requires 0 <= i < |s| => s[i] ^ mask[i % 4])
  }

  lemma {:induction false} UnmaskTwice(s: seq<bv8>, mask: seq<bv8>)
    requires |mask| == 4
    ensures Unmask(Unmask(s, mask), mask) == s
  {
    forall i | 0 <= i < |s|
      ensures Unmask(Unmask(s, mask), mask)[i] == s[i]
    {
      XorTwice(s[i], mask[i % 4]);
    }
  }

  lemma {:induction false} XorTwice(x: bv8, m: bv8)
    ensures (x ^ m) ^ m == x
  {
  }

  // ---- parsing ----

  function Extended(b: bv8): nat {
    if b & 0x7f == 126 then 2 else if b & 0x7f == 127 then 8 else 0
  }

  function PayloadLength(s: seq<bv8>): nat
    requires |s| >= 2 && |s| >= 2 + Extended(s[1])
  {
    if Extended(s[1]) == 0 then (s[1] & 0x7f) as nat else BigEndian(s[2..2 + Extended(s[1])])
  }

  function Head(s: seq<bv8>): nat
    requires |s| >= 2
  {
    2 + Extended(s[1]) + if s[1] & 0x80 != 0 then 4 else 0
  }

  function Body(s: seq<bv8>, head: nat, n: nat): (body: seq<bv8>)
    requires 2 <= head && head + n <= |s| && (s[1] & 0x80 != 0 ==> 4 <= head)
    ensures |body| == n
  {
    if s[1] & 0x80 != 0 then Unmask(s[head..head + n], s[head - 4..head]) else s[head..head + n]
  }

  /** The first frame of a byte stream, if it is all there. */
  function ParseFrame(s: seq<bv8>): (p: Parse)
    ensures p.Parsed? ==> 2 <= p.used <= |s| && |p.frame.payload| <= MAX_MESSAGE_BYTES
  {
    if |s| < 2 || |s| < 2 + Extended(s[1]) then Incomplete
    else
      var n, head := PayloadLength(s), Head(s);
      if n > MAX_MESSAGE_BYTES then Oversized
      else if |s| < head + n then Incomplete
      else Parsed(Frame(s[0] & 0x0f, s[0] & 0x80 != 0, Body(s, head, n)), head + n)
  }

  lemma {:induction false} HeadExtends(a: seq<bv8>, b: seq<bv8>)
    requires |a| >= 2 && |a| >= 2 + Extended(a[1])
    ensures var s := a + b;
            s[0] == a[0] && s[1] == a[1] && PayloadLength(s) == PayloadLength(a) && Head(s) == Head(a)
  {
    assert (a + b)[2..2 + Extended(a[1])] == a[2..2 + Extended(a[1])];
  }

  lemma {:induction false} BodyExtends(a: seq<bv8>, b: seq<bv8>, head: nat, n: nat)
    requires 2 <= head && head + n <= |a| && (a[1] & 0x80 != 0 ==> 4 <= head)
    ensures (a + b)[1] == a[1] && Body(a + b, head, n) == Body(a, head, n)
  {
    assert (a + b)[head..head + n] == a[head..head + n];
    if a[1] & 0x80 != 0 {
      assert (a + b)[head - 4..head] == a[head - 4..head];
    }
  }

  /** Bytes that arrive later do not change what was parsed. */
  lemma {:induction false} ParseExtends(a: seq<bv8>, b: seq<bv8>)
    requires !ParseFrame(a).Incomplete?
    ensures ParseFrame(a + b) == ParseFrame(a)
  {
    hide PayloadLength, Body, Extended;
    HeadExtends(a, b);
    if PayloadLength(a) <= MAX_MESSAGE_BYTES {
      BodyExtends(a, b, Head(a), PayloadLength(a));
    }
  }

  /** A frame that is still incomplete is short. */
  lemma {:induction false} IncompleteIsShort(s: seq<bv8>)
    requires ParseFrame(s).Incomplete?
    ensures |s| < MAX_HEAD + MAX_MESSAGE_BYTES
  {
  }

  // ---- writing ----

  function Front(f: Frame, masked: bool): seq<bv8> {
    var n := |f.payload|;
    var bit := if masked then 0x80 as bv8 else 0;
    [(if f.fin then 0x80 as bv8 else 0) | (f.opcode & 0x0f)]
    + (if n <= 125 then [bit | (n as bv8)]
       else if n < 65536 then [bit | 126] + Digits(n, 2)
       else [bit | 127] + Digits(n, 8))
  }

  function Back(payload: seq<bv8>, mask: Option<seq<bv8>>): seq<bv8>
    requires mask.Some? ==> |mask.value| == 4
  {
    if mask.Some? then mask.value + Unmask(payload, mask.value) else payload
  }

  /** The frame of section 5.2 of RFC 6455 in its shortest length form, masked or not. */
  function Encode(f: Frame, mask: Option<seq<bv8>>): seq<bv8>
    requires |f.payload| <= MAX_MESSAGE_BYTES && (mask.Some? ==> |mask.value| == 4)
  {
    Front(f, mask.Some?) + Back(f.payload, mask)
  }

  lemma {:induction false} SmallLength(n: bv8, bit: bv8)
    requires n < 128 && (bit == 0 || bit == 0x80)
    ensures (bit | n) & 0x7f == n && (bit | n) & 0x80 == bit
  {
  }

  lemma {:induction false} SmallFits(n: nat)
    requires n <= 127
    ensures (n as bv8) < 128
  {
  }

  lemma {:induction false} FirstByte(fin: bool, opcode: bv8)
    ensures var b := (if fin then 0x80 as bv8 else 0) | (opcode & 0x0f);
            b & 0x0f == opcode & 0x0f && (b & 0x80 != 0 <==> fin)
  {
  }

  lemma {:induction false} ShortLength(b: bv8, s: seq<bv8>, n: nat, bit: bv8)
    requires n <= 125 && (bit == 0 || bit == 0x80) && |s| >= 2 && s[1] == b == bit | (n as bv8)
    ensures b & 0x80 == bit && Extended(b) == 0 && PayloadLength(s) == n
  {
    SmallFits(n);
    SmallLength(n as bv8, bit);
    ByteOf(n);
  }

  lemma {:induction false} LongLength(b: bv8, s: seq<bv8>, n: nat, bit: bv8, k: nat)
    requires (k == 2 && b == bit | 126) || (k == 8 && b == bit | 127)
    requires |s| >= 2 + k && s[1] == b && s[2..2 + k] == Digits(n, k) && n < Pow256(k) && (bit == 0 || bit == 0x80)
    ensures b & 0x80 == bit && Extended(b) == k && PayloadLength(s) == n
  {
    hide Digits, Pow256, BigEndian;
    SmallLength(126, bit);
    SmallLength(127, bit);
    DigitsOfLength(n, k);
  }

  lemma {:induction false} LengthsFit(n: nat)
    requires n <= MAX_MESSAGE_BYTES
    ensures n < Pow256(8) && (n < 65536 ==> n < Pow256(2))
  {
    assert Pow256(2) == 65536 && Pow256(4) == 0x1_0000_0000;
    assert Pow256(8) == 0x1_0000_0000_0000_0000;
  }

  lemma {:induction false} LengthIsBack(f: Frame, masked: bool, rest: seq<bv8>)
    requires |f.payload| <= MAX_MESSAGE_BYTES
    ensures var s, n := Front(f, masked) + rest, |f.payload|;
            && |s| >= 2 && (s[1] & 0x80 != 0 <==> masked)
            && 2 + Extended(s[1]) == |Front(f, masked)| <= |s| && PayloadLength(s) == n
            && s[0] & 0x0f == f.opcode & 0x0f && (s[0] & 0x80 != 0 <==> f.fin)
  {
    hide Digits, Pow256, Extended, PayloadLength;
    var s, n := Front(f, masked) + rest, |f.payload|;
    var bit := if masked then 0x80 as bv8 else 0;
    FirstByte(f.fin, f.opcode);
    LengthsFit(n);
    if n <= 125 {
      ShortLength(s[1], s, n, bit);
    } else if n < 65536 {
      assert s[2..4] == Digits(n, 2);
      LongLength(s[1], s, n, bit, 2);
    } else {
      assert s[2..10] == Digits(n, 8);
      LongLength(s[1], s, n, bit, 8);
    }
  }

  lemma {:induction false} BodyIsBack(front: seq<bv8>, payload: seq<bv8>, mask: Option<seq<bv8>>, rest: seq<bv8>)
    requires |front| >= 2 && (front[1] & 0x80 != 0 <==> mask.Some?) && (mask.Some? ==> |mask.value| == 4)
    ensures var s := front + Back(payload, mask) + rest;
            var head := |front| + if mask.Some? then 4 else 0;
            head + |payload| <= |s| && Body(s, head, |payload|) == payload
  {
    var s := front + Back(payload, mask) + rest;
    var n := |payload|;
    if mask.Some? {
      var head := |front| + 4;
      assert s[head - 4..head] == mask.value;
      assert s[head..head + n] == Unmask(payload, mask.value);
      UnmaskTwice(payload, mask.value);
    } else {
      assert s[|front|..|front| + n] == payload;
    }
  }

  /** Parsing a written frame, followed by anything, gives the frame back. */
  lemma {:induction false} ParseEncoded(f: Frame, mask: Option<seq<bv8>>, rest: seq<bv8>)
    requires |f.payload| <= MAX_MESSAGE_BYTES && (mask.Some? ==> |mask.value| == 4)
    ensures ParseFrame(Encode(f, mask) + rest) == Parsed(f.(opcode := f.opcode & 0x0f), |Encode(f, mask)|)
  {
    hide Extended, PayloadLength, Front, Body, Unmask;
    var front, back := Front(f, mask.Some?), Back(f.payload, mask);
    LengthIsBack(f, mask.Some?, back + rest);
    assert front + (back + rest) == Encode(f, mask) + rest;
    BodyIsBack(front, f.payload, mask, rest);
  }

  function Cut(data: seq<bv8>): seq<bv8> { if |data| > MAX_CONTROL then data[..MAX_CONTROL] else data }

  lemma {:induction false} ControlFrame(opcode: bv8, data: seq<bv8>, mask: seq<bv8>)
    requires |mask| == 4 && |data| <= MAX_CONTROL
    ensures Encode(Frame(opcode, true, data), Some(mask)) ==
            [0x80 | (opcode & 0x0f), 0x80 | (|data| as bv8)] + mask + Unmask(data, mask)
  {
  }

  /** Writes a masked client frame into its buffer. */
  method UpstreamFrame(opcode: bv8, data: seq<bv8>, mask: seq<bv8>) returns (frame: array<bv8>, size: nat)
    requires |mask| == 4
    ensures size <= frame.Length
    ensures frame[..size] == Encode(Frame(opcode, true, Cut(data)), Some(mask))
  {
    hide Encode, Unmask, Cut;
    CutIsShort(data);
    frame := new bv8[2 + 4 + MAX_CONTROL];
    size := WriteFrame(frame, 0x80 | (opcode & 0x0f), 0x80 | (|Cut(data)| as bv8), Cut(data), mask);
    ControlFrame(opcode, Cut(data), mask);
  }

  lemma {:induction false} CutIsShort(data: seq<bv8>)
    ensures |Cut(data)| <= MAX_CONTROL
  {
  }

  method WriteFrame(frame: array<bv8>, first: bv8, second: bv8, data: seq<bv8>, mask: seq<bv8>) returns (size: nat)
    requires |mask| == 4 && 6 + |data| <= frame.Length
    modifies frame
    ensures size <= frame.Length && frame[..size] == [first, second] + mask + Unmask(data, mask)
  {
    hide Unmask;
    WriteHead(frame, first, second, mask);
    MaskInto(frame, data, mask);
    size := 6 + |data|;
    assert frame[..size] == frame[..6] + frame[6..size];
  }

  method WriteHead(frame: array<bv8>, first: bv8, second: bv8, mask: seq<bv8>)
    requires |mask| == 4 && frame.Length >= 6
    modifies frame
    ensures frame[..6] == [first, second] + mask
  {
    frame[0], frame[1] := first, second;
    frame[2], frame[3], frame[4], frame[5] := mask[0], mask[1], mask[2], mask[3];
  }

  method MaskInto(frame: array<bv8>, data: seq<bv8>, mask: seq<bv8>)
    requires |mask| == 4 && 6 + |data| <= frame.Length
    modifies frame
    ensures frame[..6] == old(frame[..6]) && frame[6..6 + |data|] == Unmask(data, mask)
  {
    for i := 0 to |data|
      invariant frame[..6] == old(frame[..6])
      invariant forall j :: 0 <= j < i ==> frame[6 + j] == data[j] ^ mask[j % 4]
    {
      frame[6 + i] := data[i] ^ mask[i % 4];
    }
  }

  /** What is sent upstream parses back, whatever the mask and whatever follows. */
  lemma {:induction false} SendRoundTrip(opcode: bv8, data: seq<bv8>, mask: seq<bv8>, rest: seq<bv8>)
    requires |mask| == 4
    ensures var sent := Encode(Frame(opcode, true, Cut(data)), Some(mask));
            ParseFrame(sent + rest) == Parsed(Frame(opcode & 0x0f, true, Cut(data)), |sent|)
  {
    ParseEncoded(Frame(opcode, true, Cut(data)), Some(mask), rest);
  }

  // ---- parsing in place ----

  datatype Status = More | TooBig | Got

  lemma {:induction false} TwoBytes(s: seq<bv8>)
    requires |s| == 2
    ensures BigEndian(s) == (s[0] as nat) * 256 + s[1] as nat
  {
    var t := s[..1];
    assert t[0] == s[0] && t[..0] == [];
    assert BigEndian(t) == BigEndian(t[..0]) * 256 + t[0] as nat;
    assert BigEndian(s) == BigEndian(t) * 256 + s[1] as nat;
  }

  /** Eight bytes, the most significant first. */
  method ReadEight(buf: array<bv8>, at: nat) returns (n: nat)
    requires at + 8 <= buf.Length
    ensures n == BigEndian(buf[at..at + 8])
  {
    n := 0;
    for i := 0 to 8
      invariant n == BigEndian(buf[at..at + i])
    {
      n := n * 256 + buf[at + i] as nat;
      assert buf[at..at + i + 1][..i] == buf[at..at + i];
    }
  }

  /** The length of the payload and of the header before the mask, if enough bytes are there. */
  method ReadLength(buf: array<bv8>, len: nat, offset: nat) returns (there: bool, head: nat, n: nat)
    requires offset <= len <= buf.Length
    ensures var s := buf[offset..len];
            && (there <==> |s| >= 2 && |s| >= 2 + Extended(s[1]))
            && (there ==> head == 2 + Extended(s[1]) && n == PayloadLength(s))
  {
    hide BigEndian;
    ghost var s := buf[offset..len];
    head, n := 2, 0;
    if len - offset < 2 {
      return false, head, n;
    }
    var b := buf[offset + 1];
    assert s[1] == b;
    if b & 0x7f == 126 {
      if len - offset < 4 {
        return false, head, n;
      }
      TwoBytes(s[2..4]);
      n := (buf[offset + 2] as nat) * 256 + buf[offset + 3] as nat;
      head := 4;
    } else if b & 0x7f == 127 {
      if len - offset < 10 {
        return false, head, n;
      }
      n := ReadEight(buf, offset + 2);
      assert s[2..10] == buf[offset + 2..offset + 10];
      head := 10;
    } else {
      n := (b & 0x7f) as nat;
    }
    there := true;
  }

  /**
   * One frame of `buf[offset..len]`: a masked payload is unmasked where it
   * lies and nothing else changes.
   */
  method NextFrame(buf: array<bv8>, len: nat, offset: nat)
    returns (status: Status, opcode: bv8, fin: bool, start: nat, end: nat)
    requires offset <= len <= buf.Length
    modifies buf
    ensures match ParseFrame(old(buf[offset..len]))
            case Incomplete => status == More && buf[..] == old(buf[..])
            case Oversized => status == TooBig && buf[..] == old(buf[..])
            case Parsed(frame, used) =>
              && status == Got && offset <= start <= end == offset + used <= len
              && frame == Frame(opcode, fin, buf[start..end])
              && buf[..start] == old(buf[..start]) && buf[end..] == old(buf[end..])
  {
    hide PayloadLength, Extended, Body;
    ghost var s := buf[offset..len];
    opcode, fin, start, end := 0, false, offset, offset;
    var there, head, n := ReadLength(buf, len, offset);
    if !there {
      return More, opcode, fin, start, end;
    }
    assert s[0] == buf[offset] && s[1] == buf[offset + 1];
    var masked := buf[offset + 1] & 0x80 != 0;
    if masked {
      head := head + 4;
    }
    if n > MAX_MESSAGE_BYTES {
      return TooBig, opcode, fin, start, end;
    }
    if len - offset < head + n {
      return More, opcode, fin, start, end;
    }
    opcode, fin := buf[offset] & 0x0f, buf[offset] & 0x80 != 0;
    start, end := offset + head, offset + head + n;
    TakeBody(buf, len, offset, head, n);
    status := Got;
  }

  lemma {:induction false} SliceOfSlice(a: seq<bv8>, offset: nat, len: nat, i: nat, j: nat)
    requires offset <= len <= |a| && i <= j <= len - offset
    ensures a[offset..len][i..j] == a[offset + i..offset + j]
  {
    var part := a[offset..len];
    forall k | 0 <= k < j - i
      ensures part[i..j][k] == a[offset + i..offset + j][k]
    {
      assert part[i + k] == a[offset + (i + k)];
    }
  }

  lemma {:induction false} BodyOf(part: seq<bv8>, head: nat, n: nat, body: seq<bv8>, mask: seq<bv8>)
    requires 4 <= head && head + n <= |part| && part[head..head + n] == body && part[head - 4..head] == mask
    requires part[1] & 0x80 != 0
    ensures Body(part, head, n) == Unmask(body, mask)
  {
  }

  method TakeBody(buf: array<bv8>, len: nat, offset: nat, head: nat, n: nat)
    requires offset <= len <= buf.Length && 2 <= head && offset + head + n <= len
    requires buf[offset + 1] & 0x80 != 0 ==> 4 <= head
    modifies buf
    ensures var start, end := offset + head, offset + head + n;
            && buf[start..end] == Body(old(buf[offset..len]), head, n)
            && buf[..start] == old(buf[..start]) && buf[end..] == old(buf[end..])
  {
    var start, end := offset + head, offset + head + n;
    ghost var part, body := buf[offset..len], buf[start..end];
    assert part[1] == buf[offset + 1];
    assert part[head..head + n] == body by { SliceOfSlice(buf[..], offset, len, head, head + n); }
    if buf[offset + 1] & 0x80 != 0 {
      ghost var mask := buf[start - 4..start];
      assert part[head - 4..head] == mask by { SliceOfSlice(buf[..], offset, len, head - 4, head); }
      BodyOf(part, head, n, body, mask);
      hide Body, Unmask;
      UnmaskInPlace(buf, start, end);
    }
  }

  method UnmaskInPlace(buf: array<bv8>, start: nat, end: nat)
    requires 4 <= start <= end <= buf.Length
    modifies buf
    ensures buf[start..end] == Unmask(old(buf[start..end]), old(buf[start - 4..start]))
    ensures buf[..start] == old(buf[..start]) && buf[end..] == old(buf[end..])
  {
    for i := 0 to end - start
      invariant forall j :: 0 <= j < start ==> buf[j] == old(buf[j])
      invariant forall j :: start + i <= j < buf.Length ==> buf[j] == old(buf[j])
      invariant forall j :: 0 <= j < i ==> buf[start + j] == old(buf[start + j]) ^ old(buf[start - 4 + j % 4])
    {
      buf[start + i] := buf[start + i] ^ buf[start - 4 + i % 4];
    }
    ghost var was, mask := old(buf[start..end]), old(buf[start - 4..start]);
    forall j | 0 <= j < end - start
      ensures buf[start..end][j] == Unmask(was, mask)[j]
    {
      assert was[j] == old(buf[start + j]) && mask[j % 4] == old(buf[start - 4 + j % 4]);
    }
  }
}
