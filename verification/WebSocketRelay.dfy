// The relay's frame loop, reassembly and buffer (c/src/clash_websocket.c).
module WebSocketRelay {
  import opened Common
  import opened WebSocketFrames

  const CHUNK: nat := 16384
  const MAX_LEFTOVER: nat := 64 * 1024 + 4096

  datatype Message = Message(opcode: bv8, payload: seq<bv8>)
  datatype End = UpstreamClosed | CloseFrame | BrowserGone

  /** Writes upstream fail after so many, which ends the relay one way or the other. */
  datatype Fault = Fault(left: nat, end: End)

  /** The message being put together (opcode 0 for none), and what was sent to either side. */
  datatype Relay = Relay(
    message: seq<bv8>, opcode: bv8, browser: seq<Message>, upstream: seq<Message>, fault: Option<Fault>,
    ended: Option<End>)

  function NewRelay(fault: Option<Fault>): Relay { Relay([], 0, [], [], fault, None) }

  function WriteLeft(fault: Option<Fault>): Option<Fault> {
    if fault.Some? && fault.value.left > 0 then Some(fault.value.(left := fault.value.left - 1)) else fault
  }

  function Handle(r: Relay, f: Frame): Relay {
    if f.opcode == TEXT || f.opcode == BINARY then
      if f.fin then r.(browser := r.browser + [Message(f.opcode, f.payload)])
      else r.(message := f.payload, opcode := f.opcode)
    else if f.opcode == CONTINUATION then
      if r.opcode == 0 || |r.message| + |f.payload| > MAX_MESSAGE_BYTES then r.(ended := Some(UpstreamClosed))
      else if f.fin then
        r.(browser := r.browser + [Message(r.opcode, r.message + f.payload)], message := [], opcode := 0)
      else r.(message := r.message + f.payload)
    else if f.opcode == PING then
      if r.fault.Some? && r.fault.value.left == 0 then r.(ended := Some(r.fault.value.end))
      else
        r.(upstream := r.upstream + [Message(PONG, Cut(f.payload))],
           browser := r.browser + [Message(PING, Cut(f.payload))],
           fault := WriteLeft(r.fault))
    else if f.opcode == PONG then r.(browser := r.browser + [Message(PONG, Cut(f.payload))])
    else if f.opcode == CLOSE then r.(browser := r.browser + [Message(CLOSE, Cut(f.payload))],
          ended := Some(CloseFrame))
    else r.(ended := Some(UpstreamClosed))
  }

  function HandleAll(r: Relay, fs: seq<Frame>): Relay
    decreases |fs|
  {
    if |fs| == 0 || r.ended.Some? then r else HandleAll(Handle(r, fs[0]), fs[1..])
  }

  // ---- the whole stream at once ----

  function FramesOf(bytes: seq<bv8>): seq<Frame> {
    match ParseFrame(bytes)
    case Parsed(f, used) => [f] + FramesOf(bytes[used..])
    case _ => []
  }

  /** What is left after the last complete frame. */
  function Tail(bytes: seq<bv8>): seq<bv8> {
    match ParseFrame(bytes)
    case Parsed(f, used) => Tail(bytes[used..])
    case _ => bytes
  }

  lemma {:induction false} FramesExtend(a: seq<bv8>, b: seq<bv8>)
    ensures FramesOf(a + b) == FramesOf(a) + FramesOf(Tail(a) + b) && Tail(a + b) == Tail(Tail(a) + b)
    decreases |a|
  {
    hide ParseFrame;
    match ParseFrame(a)
    case Parsed(f, used) =>
      ParseExtends(a, b);
      FramesExtend(a[used..], b);
      assert (a + b)[used..] == a[used..] + b;
    case _ =>
  }

  // ---- as it arrives ----

  datatype Session = Session(rest: seq<bv8>, relay: Relay)

  /** The inner loop: frames are handled until one is missing bytes or the relay ends. */
  function Consume(bytes: seq<bv8>, r: Relay): Session
    decreases |bytes|
  {
    match ParseFrame(bytes)
    case Incomplete => Session(bytes, r)
    case Oversized => Session(bytes, r.(ended := Some(UpstreamClosed)))
    case Parsed(f, used) =>
      var r' := Handle(r, f);
      if r'.ended.Some? then Session(bytes[used..], r') else Consume(bytes[used..], r')
  }

  function Feed(s: Session, chunk: seq<bv8>): Session {
    if s.relay.ended.Some? then s else Consume(s.rest + chunk, s.relay)
  }

  function FeedAll(s: Session, chunks: seq<seq<bv8>>): Session {
    if |chunks| == 0 then s else Feed(FeedAll(s, chunks[..|chunks| - 1]), chunks[|chunks| - 1])
  }

  function Concat(chunks: seq<seq<bv8>>): seq<bv8> {
    if |chunks| == 0 then [] else Concat(chunks[..|chunks| - 1]) + chunks[|chunks| - 1]
  }

  lemma {:induction false} ConsumeSplit(a: seq<bv8>, b: seq<bv8>, r: Relay)
    requires r.ended.None?
    ensures var s := Consume(a, r);
            if s.relay.ended.Some? then Consume(a + b, r).relay == s.relay
            else Consume(a + b, r) == Consume(s.rest + b, s.relay)
    decreases |a|
  {
    hide ParseFrame, Handle;
    if !ParseFrame(a).Incomplete? {
      ParseExtends(a, b);
    }
    match ParseFrame(a)
    case Parsed(f, used) =>
      assert (a + b)[used..] == a[used..] + b;
      if Handle(r, f).ended.None? {
        ConsumeSplit(a[used..], b, Handle(r, f));
      }
    case _ =>
  }

  /** Two sessions that agree on everything that can still matter. */
  predicate Same(s: Session, t: Session) { s.relay == t.relay && (s.relay.ended.None? ==> s.rest == t.rest) }

  /** However a stream is cut into reads, the relay does what it does on the whole stream. */
  lemma {:induction false} ChunkingInvariant(leftover: seq<bv8>, chunks: seq<seq<bv8>>, fault: Option<Fault>)
    ensures Same(FeedAll(Consume(leftover, NewRelay(fault)), chunks),
              Consume(leftover + Concat(chunks), NewRelay(fault)))
  {
    hide Consume;
    if |chunks| == 0 {
      assert leftover + [] == leftover;
    } else {
      var n := |chunks| - 1;
      ChunkingInvariant(leftover, chunks[..n], fault);
      var all := leftover + Concat(chunks[..n]);
      ConsumeSplit(all, chunks[n], NewRelay(fault));
      assert leftover + Concat(chunks) == all + chunks[n];
    }
  }

  /** On the whole stream it handles the parsed frames in order, and ends on one that is too long. */
  lemma {:induction false} ConsumeIsFold(bytes: seq<bv8>, r: Relay)
    requires r.ended.None?
    ensures var h := HandleAll(r, FramesOf(bytes));
            Consume(bytes, r).relay ==
            if h.ended.None? && ParseFrame(Tail(bytes)).Oversized? then h.(ended := Some(UpstreamClosed)) else h
    decreases |bytes|
  {
    hide ParseFrame, Handle;
    match ParseFrame(bytes)
    case Parsed(f, used) =>
      var fs := FramesOf(bytes);
      assert fs[0] == f && fs[1..] == FramesOf(bytes[used..]);
      if Handle(r, f).ended.None? {
        ConsumeIsFold(bytes[used..], Handle(r, f));
      }
    case _ =>
  }

  /** Any cutting of a stream relays exactly what its frames say. */
  lemma {:induction false} RelayedFrames(leftover: seq<bv8>, chunks: seq<seq<bv8>>, fault: Option<Fault>)
    ensures var stream := leftover + Concat(chunks);
            var h := HandleAll(NewRelay(fault), FramesOf(stream));
            FeedAll(Consume(leftover, NewRelay(fault)), chunks).relay ==
            if h.ended.None? && ParseFrame(Tail(stream)).Oversized? then h.(ended := Some(UpstreamClosed)) else h
  {
    hide Consume, HandleAll, ParseFrame, FeedAll;
    ChunkingInvariant(leftover, chunks, fault);
    ConsumeIsFold(leftover + Concat(chunks), NewRelay(fault));
  }

  // ---- the buffer stays small ----

  lemma {:induction false} RestIsShort(bytes: seq<bv8>, r: Relay)
    requires r.ended.None?
    ensures Consume(bytes, r).relay.ended.None? ==> |Consume(bytes, r).rest| < MAX_HEAD + MAX_MESSAGE_BYTES
    decreases |bytes|
  {
    hide ParseFrame, Handle;
    match ParseFrame(bytes)
    case Incomplete => IncompleteIsShort(bytes);
    case Parsed(f, used) =>
      if Handle(r, f).ended.None? {
        RestIsShort(bytes[used..], Handle(r, f));
      }
    case _ =>
  }

  /** Before any read is handled, the buffer is below a fixed bound. */
  lemma {:induction false} BufferBound(leftover: seq<bv8>, chunks: seq<seq<bv8>>, fault: Option<Fault>)
    requires |leftover| <= MAX_LEFTOVER && forall i :: 0 <= i < |chunks| ==> |chunks[i]| <= CHUNK
    ensures |leftover| < MAX_HEAD + MAX_MESSAGE_BYTES + CHUNK
    ensures forall n :: 0 <= n < |chunks| ==>
              var s := FeedAll(Consume(leftover, NewRelay(fault)), chunks[..n]);
              s.relay.ended.None? ==> |s.rest + chunks[n]| < MAX_HEAD + MAX_MESSAGE_BYTES + CHUNK
  {
    hide Consume, FeedAll, Concat;
    forall n | 0 <= n < |chunks|
      ensures var s := FeedAll(Consume(leftover, NewRelay(fault)), chunks[..n]);
              s.relay.ended.None? ==> |s.rest + chunks[n]| < MAX_HEAD + MAX_MESSAGE_BYTES + CHUNK
    {
      ChunkingInvariant(leftover, chunks[..n], fault);
      RestIsShort(leftover + Concat(chunks[..n]), NewRelay(fault));
    }
  }

  // ---- messages of section 5.4 of RFC 6455 ----

  /** A later fragment, after the control frames that were put in front of it. */
  datatype Part = Part(controls: seq<Frame>, payload: seq<bv8>)
  datatype Item = Control(frame: Frame) | Data(opcode: bv8, first: seq<bv8>, more: seq<Part>)

  predicate ControlOk(f: Frame) { f.opcode == PING || f.opcode == PONG }

  predicate PartOk(p: Part) { forall i :: 0 <= i < |p.controls| ==> ControlOk(p.controls[i]) }

  predicate ItemOk(it: Item) {
    match it
    case Control(f) => ControlOk(f)
    case Data(op, first, more) =>
      && (op == TEXT || op == BINARY) && |first| + |Joined(more)| <= MAX_MESSAGE_BYTES
      && forall i :: 0 <= i < |more| ==> PartOk(more[i])
  }

  function Joined(more: seq<Part>): seq<bv8> {
    if |more| == 0 then [] else more[0].payload + Joined(more[1..])
  }

  function PartFrames(more: seq<Part>): seq<Frame> {
    if |more| == 0 then []
    else more[0].controls + [Frame(CONTINUATION, |more| == 1, more[0].payload)] + PartFrames(more[1..])
  }

  function ItemFrames(it: Item): seq<Frame> {
    match it
    case Control(f) => [f]
    case Data(op, first, more) => [Frame(op, |more| == 0, first)] + PartFrames(more)
  }

  function StreamFrames(items: seq<Item>): seq<Frame> {
    if |items| == 0 then [] else ItemFrames(items[0]) + StreamFrames(items[1..])
  }

  /** The control frames of a stream, in order. */
  function PartControls(more: seq<Part>): seq<Frame> {
    if |more| == 0 then [] else more[0].controls + PartControls(more[1..])
  }

  function Echoes(fs: seq<Frame>): seq<Message> {
    if |fs| == 0 then [] else [Message(fs[0].opcode, Cut(fs[0].payload))] + Echoes(fs[1..])
  }

  function Pongs(fs: seq<Frame>): seq<Message> {
    if |fs| == 0 then []
    else (if fs[0].opcode == PING then [Message(PONG, Cut(fs[0].payload))] else []) + Pongs(fs[1..])
  }

  function ItemExpected(it: Item): seq<Message> {
    match it
    case Control(f) => Echoes([f])
    case Data(op, first, more) => Echoes(PartControls(more)) + [Message(op, first + Joined(more))]
  }

  function ItemAnswers(it: Item): seq<Message> {
    match it
    case Control(f) => Pongs([f])
    case Data(_, _, more) => Pongs(PartControls(more))
  }

  /** What the browser should see: control frames as they come, each data message whole, when it is complete. */
  function Expected(items: seq<Item>): seq<Message> {
    if |items| == 0 then [] else ItemExpected(items[0]) + Expected(items[1..])
  }

  function Answers(items: seq<Item>): seq<Message> {
    if |items| == 0 then [] else ItemAnswers(items[0]) + Answers(items[1..])
  }

  lemma {:induction false} HandleSplit(r: Relay, a: seq<Frame>, b: seq<Frame>)
    ensures HandleAll(r, a + b) == HandleAll(HandleAll(r, a), b)
    decreases |a|
  {
    hide Handle;
    if |a| == 0 {
      assert a + b == b;
    } else if r.ended.None? {
      assert (a + b)[1..] == a[1..] + b;
      HandleSplit(Handle(r, a[0]), a[1..], b);
    }
  }

  function Sent(r: Relay, browser: seq<Message>, upstream: seq<Message>): Relay {
    r.(browser := r.browser + browser, upstream := r.upstream + upstream)
  }

  lemma {:induction false} Assoc<T>(a: seq<T>, b: seq<T>, c: seq<T>)
    ensures (a + b) + c == a + (b + c)
  {
  }

  lemma {:induction false} ControlsPassThrough(r: Relay, fs: seq<Frame>)
    requires r.ended.None? && r.fault.None? && forall i :: 0 <= i < |fs| ==> ControlOk(fs[i])
    ensures HandleAll(r, fs) == Sent(r, Echoes(fs), Pongs(fs))
    decreases |fs|
  {
    hide Cut;
    if |fs| == 0 {
      assert r.browser + [] == r.browser && r.upstream + [] == r.upstream;
    } else {
      assert ControlOk(fs[0]);
      ControlsPassThrough(Handle(r, fs[0]), fs[1..]);
      Assoc(r.browser, [Message(fs[0].opcode, Cut(fs[0].payload))], Echoes(fs[1..]));
      Assoc(r.upstream, if fs[0].opcode == PING then [Message(PONG, Cut(fs[0].payload))] else [], Pongs(fs[1..]));
      assert r.upstream + [] == r.upstream;
    }
  }

  lemma {:induction false} EchoesSplit(a: seq<Frame>, b: seq<Frame>)
    ensures Echoes(a + b) == Echoes(a) + Echoes(b)
    decreases |a|
  {
    hide Cut;
    if |a| == 0 {
      assert a + b == b;
    } else {
      assert (a + b)[1..] == a[1..] + b;
      EchoesSplit(a[1..], b);
      Assoc([Message(a[0].opcode, Cut(a[0].payload))], Echoes(a[1..]), Echoes(b));
    }
  }

  lemma {:induction false} PongsSplit(a: seq<Frame>, b: seq<Frame>)
    ensures Pongs(a + b) == Pongs(a) + Pongs(b)
    decreases |a|
  {
    hide Cut;
    if |a| == 0 {
      assert a + b == b;
    } else {
      assert (a + b)[1..] == a[1..] + b;
      PongsSplit(a[1..], b);
      Assoc(if a[0].opcode == PING then [Message(PONG, Cut(a[0].payload))] else [], Pongs(a[1..]), Pongs(b));
    }
  }

  /** From the middle of a message to its end. */
  lemma {:induction false} PartsJoin(r: Relay, more: seq<Part>)
    requires r.ended.None? && r.fault.None? && r.opcode != 0 && |more| > 0
    requires |r.message| + |Joined(more)| <= MAX_MESSAGE_BYTES
    requires forall i :: 0 <= i < |more| ==> PartOk(more[i])
    ensures HandleAll(r, PartFrames(more)) ==
            Sent(r, Echoes(PartControls(more)) + [Message(r.opcode, r.message + Joined(more))],
                  Pongs(PartControls(more)))
            .(message := [], opcode := 0)
    decreases |more|
  {
    hide HandleAll, Echoes, Pongs, ControlOk, Handle;
    var p, last := more[0], |more| == 1;
    var f := Frame(CONTINUATION, last, p.payload);
    assert PartOk(p);
    var r1 := Sent(r, Echoes(p.controls), Pongs(p.controls));
    ControlsPassThrough(r, p.controls);
    var r2 := Handle(r1, f);
    HandleSplit(r, p.controls, [f]);
    HandleOne(r1, f);
    HandleSplit(r, p.controls + [f], PartFrames(more[1..]));
    EchoesSplit(p.controls, PartControls(more[1..]));
    PongsSplit(p.controls, PartControls(more[1..]));
    Continued(r1, f);
    if last {
      LastPart(r, r1, more);
    } else {
      assert r1.message + (p.payload + Joined(more[1..])) == r2.message + Joined(more[1..]);
      PartsJoin(r2, more[1..]);
      SentTwice(r, r1, r2, more);
    }
  }

  lemma {:induction false} HandleOne(r: Relay, f: Frame)
    requires r.ended.None?
    ensures HandleAll(r, [f]) == Handle(r, f)
  {
    hide Handle;
    assert [f][1..] == [];
  }

  lemma {:induction false} Continued(r: Relay, f: Frame)
    requires r.opcode != 0 && f.opcode == CONTINUATION && |r.message| + |f.payload| <= MAX_MESSAGE_BYTES
    ensures Handle(r, f) ==
            if f.fin then r.(browser := r.browser + [Message(r.opcode, r.message + f.payload)],
                  message := [], opcode := 0)
            else r.(message := r.message + f.payload)
  {
  }

  lemma {:induction false} LastPart(r: Relay, r1: Relay, more: seq<Part>)
    requires |more| == 1 && r1 == Sent(r, Echoes(more[0].controls), Pongs(more[0].controls))
    ensures PartFrames(more[1..]) == [] && Joined(more) == more[0].payload && PartControls(more) == more[0].controls
    ensures HandleAll(Handle(r1, Frame(CONTINUATION, true, more[0].payload)), []) ==
            Handle(r1, Frame(CONTINUATION, true, more[0].payload))
    ensures r1.browser + [Message(r1.opcode, r1.message + more[0].payload)] ==
            r.browser + (Echoes(PartControls(more)) + [Message(r.opcode, r.message + Joined(more))])
  {
    hide Handle, Echoes, Pongs;
    assert more[0].payload + [] == more[0].payload && more[0].controls + [] == more[0].controls;
  }

  lemma {:induction false} SentTwice(r: Relay, r1: Relay, r2: Relay, more: seq<Part>)
    requires |more| > 1 && r1 == Sent(r, Echoes(more[0].controls), Pongs(more[0].controls))
    requires r2 == r1.(message := r1.message + more[0].payload)
    ensures var rest := more[1..];
            var m := Message(r2.opcode, r2.message + Joined(rest));
            && r2.browser + (Echoes(PartControls(rest)) + [m]) ==
               r.browser + ((Echoes(more[0].controls) + Echoes(PartControls(rest)))
                     + [Message(r.opcode, r.message + Joined(more))])
            && r2.upstream + Pongs(PartControls(rest)) ==
                r.upstream + (Pongs(more[0].controls) + Pongs(PartControls(rest)))
  {
    hide Echoes, Pongs;
    var rest := more[1..];
    Assoc(r.message, more[0].payload, Joined(rest));
    var e, f, m := Echoes(more[0].controls), Echoes(PartControls(rest)), [Message(r.opcode, r.message + Joined(more))];
    Assoc(r.browser, e, f + m);
    Assoc(e, f, m);
    Assoc(r.upstream, Pongs(more[0].controls), Pongs(PartControls(rest)));
  }

  /** Each data message reaches the browser whole and in order, whatever control frames came between its fragments. */
  lemma {:induction false} Reassembly(r: Relay, items: seq<Item>)
    requires r.ended.None? && r.fault.None? && r.opcode == 0 && r.message == []
    requires forall i :: 0 <= i < |items| ==> ItemOk(items[i])
    ensures HandleAll(r, StreamFrames(items)) == Sent(r, Expected(items), Answers(items))
    decreases |items|
  {
    hide HandleAll, ItemOk, ItemFrames, ItemExpected, ItemAnswers;
    if |items| == 0 {
      NothingToDo(r);
      assert r.browser + [] == r.browser && r.upstream + [] == r.upstream;
    } else {
      var it, rest := items[0], items[1..];
      HandleSplit(r, ItemFrames(it), StreamFrames(rest));
      OneItem(r, it);
      Reassembly(Sent(r, ItemExpected(it), ItemAnswers(it)), rest);
      Assoc(r.browser, ItemExpected(it), Expected(rest));
      Assoc(r.upstream, ItemAnswers(it), Answers(rest));
    }
  }

  lemma {:induction false} NothingToDo(r: Relay)
    ensures HandleAll(r, []) == r
  {
  }

  lemma {:induction false} OneItem(r: Relay, it: Item)
    requires r.ended.None? && r.fault.None? && r.opcode == 0 && r.message == [] && ItemOk(it)
    ensures HandleAll(r, ItemFrames(it)) == Sent(r, ItemExpected(it), ItemAnswers(it))
  {
    hide HandleAll, Echoes, Pongs, Joined, PartFrames, PartControls, ControlOk;
    match it
    case Control(f) => ControlsPassThrough(r, [f]);
    case Data(op, first, more) =>
      var f := Frame(op, |more| == 0, first);
      HandleSplit(r, [f], PartFrames(more));
      HandleOne(r, f);
      if |more| == 0 {
        SingleFrame(r, f);
      } else {
        PartsJoin(Handle(r, f), more);
      }
  }

  lemma {:induction false} SingleFrame(r: Relay, f: Frame)
    requires r.ended.None? && (f.opcode == TEXT || f.opcode == BINARY) && f.fin
    ensures HandleAll(Handle(r, f), PartFrames([])) ==
            Sent(r, Echoes(PartControls([])) + [Message(f.opcode, f.payload + Joined([]))], Pongs(PartControls([])))
  {
    assert f.payload + [] == f.payload && r.upstream + [] == r.upstream;
    assert [] + [Message(f.opcode, f.payload)] == [Message(f.opcode, f.payload)];
  }

  // ---- streams that close, and streams that are cut off ----

  function CloseFrames(close: Option<seq<bv8>>): seq<Frame> {
    if close.Some? then [Frame(CLOSE, true, close.value)] else []
  }

  function Farewell(close: Option<seq<bv8>>): seq<Message> {
    if close.Some? then [Message(CLOSE, Cut(close.value))] else []
  }

  /** All messages, and then the close frame if there is one, which ends the relay whatever follows. */
  lemma {:induction false} ReassemblyToClose(items: seq<Item>, close: Option<seq<bv8>>, after: seq<Frame>)
    requires (forall i :: 0 <= i < |items| ==> ItemOk(items[i])) && (close.None? ==> after == [])
    ensures var r := HandleAll(NewRelay(None), StreamFrames(items) + CloseFrames(close) + after);
            && r.browser == Expected(items) + Farewell(close) && r.upstream == Answers(items)
            && r.ended == if close.Some? then Some(CloseFrame) else None
  {
    hide HandleAll, ItemOk, Expected, Answers, StreamFrames, Cut;
    var n, fs := NewRelay(None), StreamFrames(items);
    var r := Sent(n, Expected(items), Answers(items));
    Reassembly(n, items);
    assert n.browser + Expected(items) == Expected(items) && n.upstream + Answers(items) == Answers(items);
    if close.Some? {
      var f := Frame(CLOSE, true, close.value);
      HandleSplit(n, fs, [f]);
      HandleOne(r, f);
      HandleSplit(n, fs + [f], after);
      EndedStays(Handle(r, f), after);
    } else {
      assert fs + [] + [] == fs;
      assert Expected(items) + [] == Expected(items);
    }
  }

  lemma {:induction false} EndedStays(r: Relay, fs: seq<Frame>)
    requires r.ended.Some?
    ensures HandleAll(r, fs) == r
  {
  }

  /** What was sent stays sent, and an ended relay stays ended. */
  lemma {:induction false} OnlyMore(r: Relay, fs: seq<Frame>)
    ensures r.browser <= HandleAll(r, fs).browser && r.upstream <= HandleAll(r, fs).upstream
    ensures r.ended.Some? ==> HandleAll(r, fs).ended.Some?
    decreases |fs|
  {
    if |fs| == 0 || r.ended.Some? {
    } else {
      assert r.browser <= Handle(r, fs[0]).browser && r.upstream <= Handle(r, fs[0]).upstream;
      hide Handle;
      OnlyMore(Handle(r, fs[0]), fs[1..]);
    }
  }

  /** The tail of a prefix of a stream without an oversized frame is not oversized either. */
  lemma {:induction false} PrefixNotOversized(a: seq<bv8>, b: seq<bv8>)
    requires Tail(a + b) == []
    ensures !ParseFrame(Tail(a)).Oversized?
  {
    hide ParseFrame;
    FramesExtend(a, b);
    if ParseFrame(Tail(a)).Oversized? {
      ParseExtends(Tail(a), b);
      assert Tail(a) + b == [];
      NoBytes();
      assert false;
    }
  }

  // ---- from bytes to messages ----

  datatype Coded = Coded(frame: Frame, mask: Option<seq<bv8>>)

  predicate CodedOk(c: Coded) {
    && c.frame.opcode & 0x0f == c.frame.opcode && |c.frame.payload| <= MAX_MESSAGE_BYTES
    && (c.mask.Some? ==> |c.mask.value| == 4)
  }

  function Bytes(cs: seq<Coded>): seq<bv8>
    requires forall i :: 0 <= i < |cs| ==> CodedOk(cs[i])
  {
    if |cs| == 0 then [] else assert CodedOk(cs[0]); Encode(cs[0].frame, cs[0].mask) + Bytes(cs[1..])
  }

  function Plain(cs: seq<Coded>): seq<Frame> {
    if |cs| == 0 then [] else [cs[0].frame] + Plain(cs[1..])
  }

  lemma {:induction false} FramesOfBytes(cs: seq<Coded>)
    requires forall i :: 0 <= i < |cs| ==> CodedOk(cs[i])
    ensures FramesOf(Bytes(cs)) == Plain(cs) && Tail(Bytes(cs)) == []
  {
    hide Encode;
    if |cs| == 0 {
    } else {
      assert CodedOk(cs[0]);
      ParseEncoded(cs[0].frame, cs[0].mask, Bytes(cs[1..]));
      FramesOfBytes(cs[1..]);
      var e := Encode(cs[0].frame, cs[0].mask);
      assert (e + Bytes(cs[1..]))[|e|..] == Bytes(cs[1..]);
    }
  }

  /** The bytes of a stream that follows section 5.4, with its close frame if it has one. */
  ghost predicate Carries(cs: seq<Coded>, items: seq<Item>, close: Option<seq<bv8>>) {
    && (forall i :: 0 <= i < |items| ==> ItemOk(items[i])) && (forall i :: 0 <= i < |cs| ==> CodedOk(cs[i]))
    && Plain(cs) == StreamFrames(items) + CloseFrames(close)
  }

  /**
   * A stream of frames that follows section 5.4, masked or not, in reads of any
   * size, relays every message whole and in order; a close frame at its end is
   * passed on and ends the relay, whatever bytes follow.
   */
  lemma {:induction false} StreamIsRelayed(items: seq<Item>, close: Option<seq<bv8>>, cs: seq<Coded>, after: seq<bv8>,
                                           leftover: seq<bv8>, chunks: seq<seq<bv8>>)
    requires Carries(cs, items, close) && (close.None? ==> after == [])
    requires leftover + Concat(chunks) == Bytes(cs) + after
    ensures var r := FeedAll(Consume(leftover, NewRelay(None)), chunks).relay;
            && r.browser == Expected(items) + Farewell(close) && r.upstream == Answers(items)
            && r.ended == if close.Some? then Some(CloseFrame) else None
  {
    hide Consume, HandleAll, ParseFrame, FeedAll, FramesOf, Tail, Bytes, Expected, Answers, StreamFrames, ItemOk;
    hide CodedOk, Cut;
    RelayedFrames(leftover, chunks, None);
    FramesOfBytes(cs);
    FramesExtend(Bytes(cs), after);
    assert [] + after == after;
    if close.None? {
      NoBytes();
      NoFrames();
      assert Plain(cs) + [] == Plain(cs);
    }
    ReassemblyToClose(items, close, FramesOf(after));
  }

  /** At any moment of such a stream, the browser has seen a beginning of what it is to see, and nothing else. */
  lemma {:induction false} PrefixIsRelayed(items: seq<Item>, close: Option<seq<bv8>>, cs: seq<Coded>, missing: seq<bv8>,
                                           leftover: seq<bv8>, chunks: seq<seq<bv8>>)
    requires Carries(cs, items, close) && leftover + Concat(chunks) + missing == Bytes(cs)
    ensures var r := FeedAll(Consume(leftover, NewRelay(None)), chunks).relay;
            && r.browser <= Expected(items) + Farewell(close) && r.upstream <= Answers(items)
            && (r.ended.Some? ==> close.Some? && r.browser == Expected(items) + Farewell(close))
  {
    hide Consume, HandleAll, ParseFrame, FeedAll, FramesOf, Tail, Bytes, Expected, Answers, StreamFrames, ItemOk;
    hide CodedOk, Cut;
    var x := leftover + Concat(chunks);
    RelayedFrames(leftover, chunks, None);
    FramesOfBytes(cs);
    FramesExtend(x, missing);
    PrefixNotOversized(x, missing);
    var later := FramesOf(Tail(x) + missing);
    var h := HandleAll(NewRelay(None), FramesOf(x));
    HandleSplit(NewRelay(None), FramesOf(x), later);
    OnlyMore(h, later);
    ReassemblyToClose(items, close, []);
    assert Plain(cs) + [] == Plain(cs);
    if h.ended.Some? {
      EndedStays(h, later);
    }
  }

  lemma {:induction false} NoFrames()
    ensures FramesOf([]) == [] && Tail([]) == []
  {
    hide ParseFrame;
    NoBytes();
  }

  lemma {:induction false} NoBytes()
    ensures ParseFrame([]) == Incomplete
  {
  }

  // ---- the loop over a real buffer ----

  class Pump {
    var data: array<bv8>
    var len: nat
    var message: seq<bv8>
    var messageOpcode: bv8
    var browser: seq<Message>
    var upstream: seq<Message>
    var fault: Option<Fault>
    var ended: Option<End>

    function State(): Relay
      reads this
    {
      Relay(message, messageOpcode, browser, upstream, fault, ended)
    }

    function Contents(): seq<bv8>
      requires len <= data.Length
      reads this, data
    {
      data[..len]
    }

    constructor (leftover: seq<bv8>, faulty: Option<Fault>)
      ensures len <= data.Length && fresh(data)
      ensures Contents() == leftover && State() == NewRelay(faulty)
    {
      data := new bv8[|leftover|](i requires 0 <= i < |leftover| => leftover[i]);
      len := |leftover|;
      message, messageOpcode, browser, upstream, fault, ended := [], 0, [], [], faulty, None;
    }

    /** Makes room for so many more bytes, moving to a larger buffer when the present one is full. */
    method Grow(more: nat)
      requires len <= data.Length
      modifies this`data
      ensures len + more <= data.Length && (data == old(data) || fresh(data))
      ensures data[..len] == old(data[..len])
    {
      if len + more > data.Length {
        var larger := new bv8[2 * (len + more)];
        for i := 0 to len
          modifies larger
          invariant larger[..i] == data[..i]
        {
          larger[i] := data[i];
        }
        data := larger;
      }
    }

    method Append(chunk: seq<bv8>)
      requires len <= data.Length
      modifies this`data, this`len, data
      ensures len <= data.Length && (data == old(data) || fresh(data))
      ensures Contents() == old(Contents()) + chunk
    {
      Grow(|chunk|);
      var start := len;
      ghost var before := data[..start];
      for i := 0 to |chunk|
        modifies data
        invariant data[..start + i] == before + chunk[..i]
      {
        data[start + i] := chunk[i];
        assert data[..start + i + 1] == data[..start + i] + [chunk[i]];
        assert chunk[..i + 1] == chunk[..i] + [chunk[i]];
      }
      len := start + |chunk|;
      assert chunk[..|chunk|] == chunk;
    }

    method HandleFrame(opcode: bv8, fin: bool, payload: seq<bv8>)
      requires ended.None?
      modifies this`message, this`messageOpcode, this`browser, this`upstream, this`fault, this`ended
      ensures State() == Handle(old(State()), Frame(opcode, fin, payload))
    {
      if opcode == TEXT || opcode == BINARY {
        if fin {
          browser := browser + [Message(opcode, payload)];
        } else {
          message, messageOpcode := payload, opcode;
        }
      } else if opcode == CONTINUATION {
        if messageOpcode == 0 || |message| + |payload| > MAX_MESSAGE_BYTES {
          ended := Some(UpstreamClosed);
          return;
        }
        message := message + payload;
        if fin {
          browser := browser + [Message(messageOpcode, message)];
          message, messageOpcode := [], 0;
        }
      } else if opcode == PING {
        if fault.Some? && fault.value.left == 0 {
          ended := Some(fault.value.end);
          return;
        }
        fault := WriteLeft(fault);
        upstream := upstream + [Message(PONG, Cut(payload))];
        browser := browser + [Message(PING, Cut(payload))];
      } else if opcode == PONG {
        browser := browser + [Message(PONG, Cut(payload))];
      } else if opcode == CLOSE {
        browser := browser + [Message(CLOSE, Cut(payload))];
        ended := Some(CloseFrame);
      } else {
        ended := Some(UpstreamClosed);
      }
    }

    /** Drops the parsed bytes by moving the rest to the front. */
    method Compact(offset: nat)
      requires offset <= len <= data.Length
      modifies data, this`len
      ensures len == old(len) - offset && data[..len] == old(data[offset..len])
    {
      for i := 0 to len - offset
        modifies data
        invariant forall j :: 0 <= j < i ==> data[j] == old(data[offset + j])
        invariant forall j :: i <= j < data.Length ==> data[j] == old(data[j])
      {
        data[i] := data[offset + i];
      }
      len := len - offset;
    }

    /** The next frame, and what the buffer then still holds. */
    method TakeFrame(offset: nat) returns (status: Status, opcode: bv8, fin: bool, start: nat, end: nat)
      requires offset <= len <= data.Length
      modifies data
      ensures match ParseFrame(old(data[offset..len]))
              case Incomplete => status == More && data[offset..len] == old(data[offset..len])
              case Oversized => status == TooBig
              case Parsed(frame, used) =>
                && status == Got && offset <= start <= end == offset + used <= len
                && frame == Frame(opcode, fin, data[start..end]) && data[end..len] == old(data[offset..len])[used..]
    {
      hide ParseFrame;
      ghost var before := data[..];
      status, opcode, fin, start, end := NextFrame(data, len, offset);
      if status == Got {
        SliceOfSlice(before, offset, len, end - offset, len - offset);
        assert data[end..len] == data[end..][..len - end] == before[end..][..len - end] == before[end..len];
      }
    }

    /** Handles every complete frame in the buffer, then moves the rest to its front. */
    method Drain()
      requires len <= data.Length && ended.None?
      modifies this, data
      ensures len <= data.Length && data == old(data)
      ensures Same(Session(Contents(), State()), Consume(old(Contents()), old(State())))
    {
      hide ParseFrame, Handle, Consume;
      var offset := 0;
      ghost var goal := Consume(Contents(), State());
      assert data[0..len] == Contents();
      while true
        invariant offset <= len <= data.Length && data == old(data) && ended.None?
        invariant Consume(data[offset..len], State()) == goal
        decreases len - offset
      {
        ghost var pending := data[offset..len];
        Rests(pending, State());
        Advances(pending, State());
        var status, opcode, fin, start, end := TakeFrame(offset);
        if status == TooBig {
          ended := Some(UpstreamClosed);
          return;
        }
        if status == More {
          break;
        }
        HandleFrame(opcode, fin, data[start..end]);
        if ended.Some? {
          return;
        }
        offset := end;
      }
      Compact(offset);
    }

    /** One read: however the reads are cut, the state is that of the whole stream. */
    method Receive(chunk: seq<bv8>)
      requires len <= data.Length && ended.None?
      modifies this, data
      ensures len <= data.Length && (data == old(data) || fresh(data))
      ensures Same(Session(Contents(), State()), Feed(Session(old(Contents()), old(State())), chunk))
    {
      hide Consume;
      Append(chunk);
      Drain();
    }
  }

  lemma {:induction false} Rests(bytes: seq<bv8>, r: Relay)
    ensures ParseFrame(bytes).Incomplete? ==> Consume(bytes, r) == Session(bytes, r)
    ensures ParseFrame(bytes).Oversized? ==> Consume(bytes, r).relay == r.(ended := Some(UpstreamClosed))
  {
    hide ParseFrame;
  }

  lemma {:induction false} Advances(bytes: seq<bv8>, r: Relay)
    ensures ParseFrame(bytes).Parsed? ==>
              var r', used := Handle(r, ParseFrame(bytes).frame), ParseFrame(bytes).used;
              used <= |bytes| &&
              Consume(bytes, r) == if r'.ended.Some? then Session(bytes[used..], r') else Consume(bytes[used..], r')
  {
    hide ParseFrame, Handle;
  }
}
