// Whole runs of the lease gate: any interleaving of its lock-held regions.
//
// `control` is where the thread that holds the engine's runtime lock has got
// to; begin, apply, stop and reset all run under that lock, while timers,
// connections, statistics and acknowledgements do not.  Connections closed
// after a region unlocks are close steps of their own, at any later moment.
module LeaseRuns {
  import opened Common
  import opened LeasePolicy
  import opened LeaseGate
  import opened LeaseInvariant
  import opened LeaseConnections
  import opened LeaseApply

  /** A read or write between reserve and finish, and the bytes it let through so far. */
  datatype Op = Op(conn: nat, budget: nat, amount: nat, delivered: nat)

  /** Bytes a settled read or write let through. */
  datatype Delivery = Delivery(budget: nat, bytes: nat)

  datatype Control = Idle | MustStop | Binding(node: Node, replace: bool) | Resetting

  datatype World = World(
    gate: Gate, control: Control, ops: seq<Op>, log: seq<Delivery>,
    snapshot: Option<Policy>, start: int, // the latest accepted snapshot, until a stop, and its local origin
    consumed: seq<Hash>, epoch: nat)      // responses consumed since the last reset, and the number of resets

  datatype Step =
    | Begin(r: Option<Request>, hash: Hash, now: int)
    | Apply(p: Option<Policy>, hash: Hash, now: int)
    | Bind(published: bool, id: nat, started: bool)
    | Stop
    | ResetStart
    | ResetTry
    | ResetGiveUp
    | Expire(now: int)
    | Attach(token: string, from: Option<nat>, now: int)
    | Close(c: nat)
    | Reserve(c: nat, want: nat, whole: bool, now: int)
    | Deliver(i: nat, n: nat)
    | Finish(i: nat, reported: int, failed: bool)
    | Acknowledge(reports: Option<seq<Report>>)

  const NEW_WORLD: World := World(NEW_GATE, Idle, [], [], None, 0, [], 0)

  // ---- sums ----

  function SumOps(ops: seq<Op>, b: nat): nat {
    if |ops| == 0 then 0
    else SumOps(ops[..|ops| - 1], b) + if ops[|ops| - 1].budget == b then ops[|ops| - 1].amount else 0
  }

  function SumInFlight(ops: seq<Op>, b: nat): nat {
    if |ops| == 0 then 0
    else SumInFlight(ops[..|ops| - 1], b) + if ops[|ops| - 1].budget == b then ops[|ops| - 1].delivered else 0
  }

  function SumLog(log: seq<Delivery>, b: nat): nat {
    if |log| == 0 then 0
    else SumLog(log[..|log| - 1], b) + if log[|log| - 1].budget == b then log[|log| - 1].bytes else 0
  }

  function Without(ops: seq<Op>, i: nat): seq<Op>
    requires i < |ops|
  {
    ops[..i] + ops[i + 1..]
  }

  lemma {:induction false} SumOpsSnoc(ops: seq<Op>, o: Op, b: nat)
    ensures SumOps(ops + [o], b) == SumOps(ops, b) + if o.budget == b then o.amount else 0
    ensures SumInFlight(ops + [o], b) == SumInFlight(ops, b) + if o.budget == b then o.delivered else 0
  {
    assert (ops + [o])[..|ops|] == ops;
  }

  lemma {:induction false} SumLogSnoc(log: seq<Delivery>, x: Delivery, b: nat)
    ensures SumLog(log + [x], b) == SumLog(log, b) + if x.budget == b then x.bytes else 0
  {
    assert (log + [x])[..|log|] == log;
  }

  lemma {:induction false} SumOpsWithout(ops: seq<Op>, i: nat, b: nat)
    requires i < |ops|
    ensures SumOps(ops, b) == SumOps(Without(ops, i), b) + if ops[i].budget == b then ops[i].amount else 0
    ensures SumInFlight(ops, b) == SumInFlight(Without(ops, i), b) + if ops[i].budget == b then ops[i].delivered else 0
  {
    var n := |ops| - 1;
    if i == n {
      assert Without(ops, i) == ops[..n];
    } else {
      SumOpsWithout(ops[..n], i, b);
      assert Without(ops, i) == Without(ops[..n], i) + [ops[n]];
      SumOpsSnoc(Without(ops[..n], i), ops[n], b);
    }
  }

  lemma {:induction false} SumOpsDelivered(ops: seq<Op>, i: nat, d: nat, b: nat)
    requires i < |ops|
    ensures SumOps(ops[i := ops[i].(delivered := d)], b) == SumOps(ops, b)
  {
    var n := |ops| - 1;
    var ops' := ops[i := ops[i].(delivered := d)];
    if i == n {
      assert ops'[..n] == ops[..n];
    } else {
      SumOpsDelivered(ops[..n], i, d, b);
      assert ops'[..n] == ops[..n][i := ops[i].(delivered := d)];
    }
  }

  lemma {:induction false} InFlightBelow(ops: seq<Op>, b: nat)
    requires forall i :: 0 <= i < |ops| ==> ops[i].delivered <= ops[i].amount
    ensures SumInFlight(ops, b) <= SumOps(ops, b)
  {
    if |ops| == 0 {
    } else {
      InFlightBelow(ops[..|ops| - 1], b);
    }
  }

  lemma {:induction false} SumsOfNone(ops: seq<Op>, log: seq<Delivery>, b: nat)
    requires forall i :: 0 <= i < |ops| ==> ops[i].budget != b
    requires forall i :: 0 <= i < |log| ==> log[i].budget != b
    ensures SumOps(ops, b) == 0 && SumLog(log, b) == 0
    decreases |ops| + |log|
  {
    if |ops| > 0 {
      SumsOfNone(ops[..|ops| - 1], log, b);
    } else if |log| > 0 {
      SumsOfNone(ops, log[..|log| - 1], b);
    }
  }

  // ---- the invariant ----

  /** Every operation in flight belongs to a connection and to its budget. */
  predicate OpsOk(w: World)
    requires Refs(w.gate)
  {
    && (forall i :: 0 <= i < |w.ops| ==>
          && w.ops[i].conn < |w.gate.connObjs|
          && w.ops[i].budget == BudgetOf(w.gate, w.ops[i].conn)
          && w.ops[i].delivered <= w.ops[i].amount && 1 <= w.ops[i].amount)
    && (forall i :: 0 <= i < |w.log| ==> w.log[i].budget < |w.gate.budgetObjs|)
  }

  /** Reservations are exactly the operations in flight; use covers what got through. */
  predicate BytesOk(w: World) {
    forall b :: 0 <= b < |w.gate.budgetObjs| ==>
      w.gate.budgetObjs[b].reserved == SumOps(w.ops, b) && SumLog(w.log, b) <= w.gate.budgetObjs[b].used
  }

  predicate SeqOk(w: World) {
    && |w.consumed| == w.gate.seqNo
    && (w.gate.pendingSeq == w.gate.seqNo || w.gate.pendingSeq == w.gate.seqNo + 1)
    && w.gate.pendingSeq <= MAX_INTEGER
    && 0 <= w.gate.pendingStart <= MAX_START
    && (w.gate.boot == "" ==> w.gate.pendingSeq == 0)
    && (w.gate.host == "" ==> w.gate.seqNo == 0)
  }

  ghost predicate Listed(p: Policy, start: int, d: Device, b: Budget) {
    exists i, j :: ListedAt(p, start, i, j, d, b)
  }

  /** The mapped devices are the latest snapshot's, on its terms. */
  ghost predicate SnapshotOk(w: World)
    requires Refs(w.gate)
  {
    if w.snapshot.None? then w.gate.devices == map[]
    else
      && PolicyValid(w.snapshot.value) && w.snapshot.value.node.Some? && 0 < w.start <= MAX_START
      && forall t :: t in w.gate.devices ==>
           var d := w.gate.deviceObjs[w.gate.devices[t]];
           Listed(w.snapshot.value, w.start, d, w.gate.budgetObjs[d.budget])
  }

  /** While a reset waits, everything is off. */
  predicate ControlOk(w: World) {
    w.control == Resetting ==>
      && w.gate.devices == map[] && w.gate.ingress == None
      && (forall d :: 0 <= d < |w.gate.deviceObjs| ==> !w.gate.deviceObjs[d].active)
      && (forall b :: 0 <= b < |w.gate.budgetObjs| ==> !w.gate.budgetObjs[b].active)
  }

  ghost predicate Inv(w: World) {
    GateInv(w.gate) && OpsOk(w) && BytesOk(w) && SeqOk(w) && SnapshotOk(w) && ControlOk(w)
  }

  // ---- steps ----

  ghost function BeginStep(w: World, r: Option<Request>, hash: Hash, now: int): World {
    if w.control != Idle then w
    else if r.None? || !RequestValid(r.value) then w.(control := MustStop)
    else
      match BeginRegion(w.gate, r.value, hash, now)
      case None => w.(control := MustStop)
      case Some(g) => w.(gate := g)
  }

  ghost function ApplyStep(w: World, p: Option<Policy>, hash: Hash, now: int): World
    requires Refs(w.gate)
  {
    if w.control != Idle then w
    else if p.None? || !PolicyValid(p.value) then w.(control := MustStop)
    else
      var (g, verdict) := ApplyRegion(w.gate, p.value, hash, now);
      var w' := w.(gate := g, consumed := if g.seqNo == w.gate.seqNo then w.consumed else w.consumed + [hash]);
      match verdict
      case Refused => w'.(control := MustStop)
      case Repeated => w'
      case Accepted =>
        if Enables(w.gate, p.value, now)
        then w'.(snapshot := p, start := w.gate.pendingStart,
                 control := Binding(p.value.node.value, Replaces(w.gate, p.value, now)))
        else w'.(snapshot := None)
  }

  /** Publishing the listener, or giving up on it; a listener that fails to start is stopped. */
  function BindStep(w: World, published: bool, id: nat, started: bool): World {
    if !w.control.Binding? then w
    else if !published then w.(control := MustStop)
    else if !w.control.replace then w.(control := Idle)
    else w.(gate := w.gate.(ingress := Some(Ingress(id, w.control.node))),
            control := if started then Idle else MustStop)
  }

  function StopStep(w: World, after: Control): World {
    w.(gate := StopRegion(w.gate), snapshot := None, control := after)
  }

  function ResetStep(w: World): World
    requires Refs(w.gate)
  {
    if w.control != Resetting || !Quiet(w.gate) then w
    else w.(gate := ResetRegion(w.gate), control := Idle, consumed := [], epoch := w.epoch + 1)
  }

  function ReserveStep(w: World, c: nat, want: nat, whole: bool, now: int): World
    requires Refs(w.gate) && c < |w.gate.connObjs|
  {
    var n := Allowance(w.gate, c, want, whole, now);
    w.(gate := ReserveRegion(w.gate, c, want, whole, now),
       ops := if n == 0 then w.ops else w.ops + [Op(c, BudgetOf(w.gate, c), n, 0)])
  }

  function DeliverStep(w: World, i: nat, n: nat): World
    requires i < |w.ops|
  {
    if w.ops[i].delivered + n > w.ops[i].amount then w
    else w.(ops := w.ops[i := w.ops[i].(delivered := w.ops[i].delivered + n)])
  }

  function FinishStep(w: World, i: nat, reported: int, failed: bool): World
    requires Refs(w.gate) && i < |w.ops| && w.ops[i].conn < |w.gate.connObjs|
  {
    var o := w.ops[i];
    w.(gate := FinishRegion(w.gate, o.conn, o.amount, Charge(o.amount, reported, failed)),
       ops := Without(w.ops, i), log := w.log + [Delivery(o.budget, o.delivered)])
  }

  predicate Safe(w: World) { Refs(w.gate) && OpsOk(w) }

  /** A step that is not possible in the present state leaves it as it is. */
  ghost function Next(w: World, s: Step): World
    requires Safe(w)
  {
    match s
    case Begin(r, hash, now) => BeginStep(w, r, hash, now)
    case Apply(p, hash, now) => ApplyStep(w, p, hash, now)
    case Bind(published, id, started) => BindStep(w, published, id, started)
    case Stop => StopStep(w, Idle)
    case ResetStart => if w.control == Idle then StopStep(w, Resetting) else w
    case ResetTry => ResetStep(w)
    case ResetGiveUp => if w.control == Resetting then w.(control := Idle) else w
    case Expire(now) => w.(gate := ExpireRegion(w.gate, now))
    case Attach(token, from, now) => w.(gate := AttachRegion(w.gate, token, from, now))
    case Close(c) => if c < |w.gate.connObjs| then w.(gate := CloseRegion(w.gate, c)) else w
    case Reserve(c, want, whole, now) =>
      if c < |w.gate.connObjs| then ReserveStep(w, c, want, whole, now) else w
    case Deliver(i, n) => if i < |w.ops| then DeliverStep(w, i, n) else w
    case Finish(i, reported, failed) => if i < |w.ops| then FinishStep(w, i, reported, failed) else w
    case Acknowledge(reports) =>
      if reports.Some? && ReportsValid(reports.value)
      then w.(gate := AcknowledgeRegion(w.gate, reports.value)) else w
  }

  lemma {:induction false} NewWorldInv()
    ensures Inv(NEW_WORLD)
  {
    NewGateInv();
  }

  // ---- frames ----

  /** Arenas keep their entries' identity: terms of leases and devices are unchanged. */
  predicate SameTerms(g: Gate, h: Gate) {
    && |h.budgetObjs| == |g.budgetObjs| && |h.deviceObjs| == |g.deviceObjs|
    && (forall b :: 0 <= b < |g.budgetObjs| ==>
          && h.budgetObjs[b].id == g.budgetObjs[b].id && h.budgetObjs[b].user == g.budgetObjs[b].user
          && h.budgetObjs[b].epoch == g.budgetObjs[b].epoch && h.budgetObjs[b].grant == g.budgetObjs[b].grant)
    && (forall d :: 0 <= d < |g.deviceObjs| ==>
          && h.deviceObjs[d].token == g.deviceObjs[d].token && h.deviceObjs[d].budget == g.deviceObjs[d].budget
          && h.deviceObjs[d].deadline == g.deviceObjs[d].deadline)
  }

  predicate SameSeq(g: Gate, h: Gate) {
    && h.boot == g.boot && h.host == g.host && h.seqNo == g.seqNo
    && h.pendingSeq == g.pendingSeq && h.pendingHash == g.pendingHash && h.pendingStart == g.pendingStart
    && h.appliedHash == g.appliedHash
  }

  lemma {:induction false} TermsKeepSnapshot(w: World, w': World)
    requires Refs(w.gate) && Refs(w'.gate) && SnapshotOk(w) && SameTerms(w.gate, w'.gate)
    requires w'.snapshot == w.snapshot && w'.start == w.start && w'.gate.devices == w.gate.devices
    ensures SnapshotOk(w')
  {
    hide PolicyValid;
    if w.snapshot.Some? {
      forall t | t in w'.gate.devices
        ensures var d := w'.gate.deviceObjs[w'.gate.devices[t]];
                Listed(w'.snapshot.value, w'.start, d, w'.gate.budgetObjs[d.budget])
      {
        var d := w.gate.deviceObjs[w.gate.devices[t]];
        var d' := w'.gate.deviceObjs[w'.gate.devices[t]];
        ListedSame(w.snapshot.value, w.start, d, w.gate.budgetObjs[d.budget], d', w'.gate.budgetObjs[d'.budget]);
      }
    }
  }

  lemma {:induction false} ListedSame(p: Policy, start: int, d: Device, b: Budget, d': Device, b': Budget)
    requires Listed(p, start, d, b)
    requires d'.token == d.token && d'.deadline == d.deadline
    requires b'.id == b.id && b'.user == b.user && b'.epoch == b.epoch && b'.grant == b.grant
    ensures Listed(p, start, d', b')
  {
    hide Token, DeviceDeadline;
    var i, j :| ListedAt(p, start, i, j, d, b);
    assert ListedAt(p, start, i, j, d', b');
  }

  /** Same bytes everywhere: the sums still fit. */
  predicate SameBytes(g: Gate, h: Gate) {
    && |h.budgetObjs| == |g.budgetObjs|
    && forall b :: 0 <= b < |g.budgetObjs| ==>
         h.budgetObjs[b].used == g.budgetObjs[b].used && h.budgetObjs[b].reserved == g.budgetObjs[b].reserved
  }

  lemma {:induction false} BytesSame(w: World, w': World)
    requires BytesOk(w) && SameBytes(w.gate, w'.gate) && w'.ops == w.ops && w'.log == w.log
    ensures BytesOk(w')
  {
  }

  /** Operations in flight keep their connection and budget as arenas grow. */
  predicate SameConns(g: Gate, h: Gate)
    requires Refs(g) && Refs(h)
  {
    && |g.connObjs| <= |h.connObjs| && |g.budgetObjs| <= |h.budgetObjs|
    && forall c :: 0 <= c < |g.connObjs| ==> BudgetOf(h, c) == BudgetOf(g, c)
  }

  lemma {:induction false} OpsSame(w: World, w': World)
    requires Refs(w.gate) && Refs(w'.gate) && OpsOk(w) && SameConns(w.gate, w'.gate)
    requires w'.ops == w.ops && w'.log == w.log
    ensures OpsOk(w')
  {
  }

  lemma {:induction false} OffFrames(g: Gate, h: Gate)
    requires Refs(g) && Refs(h) && OnlyOff(g, h)
    ensures SameTerms(g, h) && SameBytes(g, h) && SameConns(g, h)
  {
    forall b | 0 <= b < |g.budgetObjs|
      ensures h.budgetObjs[b].(active := false) == g.budgetObjs[b].(active := false)
    {
    }
    forall d | 0 <= d < |g.deviceObjs|
      ensures h.deviceObjs[d].(active := false) == g.deviceObjs[d].(active := false)
    {
    }
  }

  /** A step that only switches things off keeps the byte accounts. */
  lemma {:induction false} OffKeepsAccounts(w: World, w': World)
    requires Refs(w.gate) && OpsOk(w) && BytesOk(w)
    requires Refs(w'.gate) && OnlyOff(w.gate, w'.gate) && w'.ops == w.ops && w'.log == w.log
    ensures OpsOk(w') && BytesOk(w')
  {
    hide OpsOk, BytesOk, OnlyOff, Refs, SameTerms, SameBytes, SameConns;
    OffFrames(w.gate, w'.gate);
    OpsSame(w, w');
    BytesSame(w, w');
  }

  lemma {:induction false} SameArenasInv(w: World, w': World)
    requires Inv(w)
    requires w'.gate.budgets == w.gate.budgets && w'.gate.devices == w.gate.devices
    requires w'.gate.connections == w.gate.connections
    requires w'.gate.budgetObjs == w.gate.budgetObjs && w'.gate.deviceObjs == w.gate.deviceObjs
    requires w'.gate.connObjs == w.gate.connObjs
    requires w'.ops == w.ops && w'.log == w.log && w'.snapshot == w.snapshot && w'.start == w.start
    ensures GateInv(w'.gate) && OpsOk(w') && BytesOk(w') && SnapshotOk(w')
  {
    hide Names, AllSane, ActiveOk, MappedOk, DeadOk, DeviceCounts, BudgetCounts, TotalCounts, PolicyValid, Listed;
    SameGateInv(w.gate, w'.gate);
    TermsKeepSnapshot(w, w');
    OpsSame(w, w');
    BytesSame(w, w');
  }

  // ---- every step keeps the invariant ----

  lemma {:induction false} BeginInv(w: World, r: Option<Request>, hash: Hash, now: int)
    requires Inv(w)
    ensures Inv(BeginStep(w, r, hash, now))
  {
    hide GateInv, OpsOk, BytesOk, SnapshotOk, ReportsValid;
    var w' := BeginStep(w, r, hash, now);
    SameArenasInv(w, w');
  }

  lemma {:induction false} BindInv(w: World, published: bool, id: nat, started: bool)
    requires Inv(w)
    ensures Inv(BindStep(w, published, id, started))
  {
    hide GateInv, OpsOk, BytesOk, SnapshotOk;
    SameArenasInv(w, BindStep(w, published, id, started));
  }

  lemma {:induction false} StopInv(w: World, after: Control)
    requires Inv(w)
    ensures Inv(StopStep(w, after))
  {
    hide Names, AllSane, ActiveOk, MappedOk, DeadOk, DeviceCounts, BudgetCounts, TotalCounts;
    hide OpsOk, BytesOk, OnlyOff, Refs;
    var w' := StopStep(w, after);
    StopKeeps(w.gate);
    StopSwitchesOff(w.gate);
    OffKeepsAccounts(w, w');
  }

  lemma {:induction false} ResetInv(w: World)
    requires Inv(w)
    ensures Inv(ResetStep(w))
  {
    hide Names, AllSane, ActiveOk, MappedOk, DeadOk, DeviceCounts, BudgetCounts, TotalCounts;
    hide OpsOk, BytesOk, OnlyOff, Refs, PolicyValid, Listed;
    if w.control == Resetting && Quiet(w.gate) {
      ResetKeeps(w.gate);
      OffKeepsAccounts(w, ResetStep(w));
    }
  }

  lemma {:induction false} ExpireInv(w: World, now: int)
    requires Inv(w)
    ensures Inv(w.(gate := ExpireRegion(w.gate, now)))
  {
    hide Names, AllSane, ActiveOk, MappedOk, DeadOk, DeviceCounts, BudgetCounts, TotalCounts;
    hide OpsOk, BytesOk, OnlyOff, Refs, SnapshotOk, SameTerms;
    var w' := w.(gate := ExpireRegion(w.gate, now));
    ExpireKeeps(w.gate, now);
    OffKeepsAccounts(w, w');
    OffFrames(w.gate, w'.gate);
    TermsKeepSnapshot(w, w');
  }

  lemma {:induction false} AcknowledgeInv(w: World, reports: seq<Report>)
    requires Inv(w)
    ensures Inv(w.(gate := AcknowledgeRegion(w.gate, reports)))
  {
    hide Names, AllSane, ActiveOk, MappedOk, DeadOk, DeviceCounts, BudgetCounts, TotalCounts;
    hide OpsOk, BytesOk, OnlyOff, Refs, SnapshotOk, SameTerms;
    var w' := w.(gate := AcknowledgeRegion(w.gate, reports));
    AcknowledgeKeeps(w.gate, reports);
    OffKeepsAccounts(w, w');
    OffFrames(w.gate, w'.gate);
    TermsKeepSnapshot(w, w');
  }

  lemma {:induction false} CountsFrames(g: Gate, h: Gate)
    requires Refs(g) && Refs(h) && SameButCounts(g, h) && |g.connObjs| <= |h.connObjs|
    requires forall c :: 0 <= c < |g.connObjs| ==> h.connObjs[c].device == g.connObjs[c].device
    ensures SameTerms(g, h) && SameBytes(g, h) && SameConns(g, h)
    ensures forall d :: 0 <= d < |g.deviceObjs| ==> h.deviceObjs[d].active == g.deviceObjs[d].active
    ensures forall b :: 0 <= b < |g.budgetObjs| ==> h.budgetObjs[b].active == g.budgetObjs[b].active
  {
    forall b | 0 <= b < |g.budgetObjs|
      ensures h.budgetObjs[b].(connections := 0) == g.budgetObjs[b].(connections := 0)
    {
    }
    forall d | 0 <= d < |g.deviceObjs|
      ensures h.deviceObjs[d].(connections := {}) == g.deviceObjs[d].(connections := {})
    {
    }
  }

  /** Opening and closing connections moves no bytes and changes no terms. */
  lemma {:induction false} CountsInv(w: World, w': World)
    requires Inv(w) && GateInv(w'.gate) && w' == w.(gate := w'.gate)
    requires SameSeq(w.gate, w'.gate) && w'.gate.ingress == w.gate.ingress
    requires SameButCounts(w.gate, w'.gate) && |w.gate.connObjs| <= |w'.gate.connObjs|
    requires forall c :: 0 <= c < |w.gate.connObjs| ==> w'.gate.connObjs[c].device == w.gate.connObjs[c].device
    ensures Inv(w')
  {
    hide Names, AllSane, ActiveOk, MappedOk, DeadOk, DeviceCounts, BudgetCounts, TotalCounts;
    hide OpsOk, BytesOk, Refs, SnapshotOk, SameTerms, SameBytes, SameConns;
    CountsFrames(w.gate, w'.gate);
    OpsSame(w, w');
    BytesSame(w, w');
    TermsKeepSnapshot(w, w');
  }

  lemma {:induction false} AttachInv(w: World, token: string, from: Option<nat>, now: int)
    requires Inv(w)
    ensures Inv(w.(gate := AttachRegion(w.gate, token, from, now)))
  {
    hide Names, AllSane, ActiveOk, MappedOk, DeadOk, DeviceCounts, BudgetCounts, TotalCounts;
    hide OpsOk, BytesOk, SnapshotOk, SameButCounts, ControlOk, SeqOk;
    var w' := w.(gate := AttachRegion(w.gate, token, from, now));
    if Admits(w.gate, token, from, now) {
      AttachKeeps(w.gate, token, from, now);
      AttachMovesCounts(w.gate, token, from, now);
      CountsInv(w, w');
    }
  }

  lemma {:induction false} CloseInv(w: World, c: nat)
    requires Inv(w) && c < |w.gate.connObjs|
    ensures Inv(w.(gate := CloseRegion(w.gate, c)))
  {
    hide Names, AllSane, ActiveOk, MappedOk, DeadOk, DeviceCounts, BudgetCounts, TotalCounts;
    hide OpsOk, BytesOk, SnapshotOk, SameButCounts, ControlOk, SeqOk;
    if !w.gate.connObjs[c].closed {
      CloseKeeps(w.gate, c);
      CloseMovesCounts(w.gate, c);
      CountsInv(w, w.(gate := CloseRegion(w.gate, c)));
    }
  }

  lemma {:induction false} CloseMovesCounts(g: Gate, c: nat)
    requires Refs(g) && c < |g.connObjs| && !g.connObjs[c].closed
    ensures SameButCounts(g, CloseRegion(g, c))
  {
  }

  lemma {:induction false} ReserveBytes(w: World, c: nat, want: nat, whole: bool, now: int)
    requires Refs(w.gate) && BytesOk(w) && c < |w.gate.connObjs|
    ensures BytesOk(ReserveStep(w, c, want, whole, now))
  {
    hide Allowance;
    var n, w' := Allowance(w.gate, c, want, whole, now), ReserveStep(w, c, want, whole, now);
    forall b | 0 <= b < |w'.gate.budgetObjs|
      ensures w'.gate.budgetObjs[b].reserved == SumOps(w'.ops, b) && SumLog(w'.log, b) <= w'.gate.budgetObjs[b].used
    {
      SumOpsSnoc(w.ops, Op(c, BudgetOf(w.gate, c), n, 0), b);
    }
  }

  lemma {:induction false} ReserveFrames(g: Gate, c: nat, want: nat, whole: bool, now: int)
    requires Refs(g) && c < |g.connObjs|
    ensures var h := ReserveRegion(g, c, want, whole, now);
            Refs(h) && SameTerms(g, h) && SameConns(g, h)
  {
    hide Allowance;
  }

  lemma {:induction false} ReserveInv(w: World, c: nat, want: nat, whole: bool, now: int)
    requires Inv(w) && c < |w.gate.connObjs|
    ensures Inv(ReserveStep(w, c, want, whole, now))
  {
    hide Names, AllSane, ActiveOk, MappedOk, DeadOk, DeviceCounts, BudgetCounts, TotalCounts;
    hide BytesOk, SnapshotOk, SameTerms, Allowance;
    var w' := ReserveStep(w, c, want, whole, now);
    ReserveKeeps(w.gate, c, want, whole, now);
    ReserveBytes(w, c, want, whole, now);
    ReserveFrames(w.gate, c, want, whole, now);
    OpsSame(w, w.(gate := w'.gate));
    TermsKeepSnapshot(w, w');
  }

  lemma {:induction false} DeliverInv(w: World, i: nat, n: nat)
    requires Inv(w) && i < |w.ops|
    ensures Inv(DeliverStep(w, i, n))
  {
    hide Names, AllSane, ActiveOk, MappedOk, DeadOk, DeviceCounts, BudgetCounts, TotalCounts, PolicyValid, Listed;
    var w' := DeliverStep(w, i, n);
    if w' != w {
      forall b | 0 <= b < |w.gate.budgetObjs|
        ensures SumOps(w'.ops, b) == SumOps(w.ops, b)
      {
        SumOpsDelivered(w.ops, i, w.ops[i].delivered + n, b);
      }
    }
  }

  /** A wrapper never gives bytes back: what it settles is what it reserved. */
  lemma {:induction false} ChargeIsWhole(allowed: nat, reported: int, failed: bool)
    ensures Charge(allowed, reported, failed) == allowed
  {
  }

  lemma {:induction false} FinishBytes(w: World, i: nat, reported: int, failed: bool)
    requires Refs(w.gate) && OpsOk(w) && BytesOk(w) && i < |w.ops|
    ensures BytesOk(FinishStep(w, i, reported, failed))
    ensures w.ops[i].amount <= w.gate.budgetObjs[w.ops[i].budget].reserved
  {
    var o, w' := w.ops[i], FinishStep(w, i, reported, failed);
    ChargeIsWhole(o.amount, reported, failed);
    SumOpsWithout(w.ops, i, o.budget);
    forall b | 0 <= b < |w'.gate.budgetObjs|
      ensures w'.gate.budgetObjs[b].reserved == SumOps(w'.ops, b) && SumLog(w'.log, b) <= w'.gate.budgetObjs[b].used
    {
      SumOpsWithout(w.ops, i, b);
      SumLogSnoc(w.log, Delivery(o.budget, o.delivered), b);
    }
  }

  lemma {:induction false} FinishFrames(g: Gate, c: nat, reserved: nat, used: nat)
    requires Refs(g) && c < |g.connObjs|
    ensures var h := FinishRegion(g, c, reserved, used);
            && Refs(h) && SameTerms(g, h) && SameConns(g, h)
            && (forall d :: 0 <= d < |g.deviceObjs| ==> h.deviceObjs[d].active ==> g.deviceObjs[d].active)
            && (forall b :: 0 <= b < |g.budgetObjs| ==> h.budgetObjs[b].active == g.budgetObjs[b].active)
  {
  }

  lemma {:induction false} FinishInv(w: World, i: nat, reported: int, failed: bool)
    requires Inv(w) && i < |w.ops|
    ensures Inv(FinishStep(w, i, reported, failed))
  {
    hide Names, AllSane, ActiveOk, MappedOk, DeadOk, DeviceCounts, BudgetCounts, TotalCounts;
    hide BytesOk, SnapshotOk, SameTerms, Sharing;
    var w' := FinishStep(w, i, reported, failed);
    var o := w.ops[i];
    ChargeIsWhole(o.amount, reported, failed);
    FinishBytes(w, i, reported, failed);
    FinishKeeps(w.gate, o.conn, o.amount, o.amount);
    FinishFrames(w.gate, o.conn, o.amount, o.amount);
    OpsSame(w, w.(gate := w'.gate));
    TermsKeepSnapshot(w, w');
  }

  // ---- apply ----

  lemma {:induction false} ConsumeInv(w: World, p: Policy, hash: Hash)
    requires Inv(w) && PolicyValid(p) && Matches(w.gate, p) && p.seqNo == w.gate.seqNo + 1
    ensures Inv(w.(gate := Consume(w.gate, p, hash), consumed := w.consumed + [hash]))
  {
    hide GateInv, OpsOk, BytesOk, SnapshotOk, ReportsValid, UsersOk, DevicesOk, NodeOk;
    SameArenasInv(w, w.(gate := Consume(w.gate, p, hash), consumed := w.consumed + [hash]));
  }

  lemma {:induction false} SwitchBytes(w: World, w': World, s: Install)
    requires Refs(w.gate) && OpsOk(w) && BytesOk(w) && BudgetsGrow(w.gate, s) && BudgetsSane(s)
    requires w'.gate.budgetObjs == s.budgetObjs && w'.ops == w.ops && w'.log == w.log
    ensures BytesOk(w')
  {
    forall b | 0 <= b < |w'.gate.budgetObjs|
      ensures w'.gate.budgetObjs[b].reserved == SumOps(w'.ops, b) && SumLog(w'.log, b) <= w'.gate.budgetObjs[b].used
    {
      assert Sane(s.budgetObjs[b]);
      if b < |w.gate.budgetObjs| {
        assert s.budgetObjs[b].(active := false, grant := 0) == w.gate.budgetObjs[b].(active := false, grant := 0);
      } else {
        SumsOfNone(w.ops, w.log, b);
      }
    }
  }

  lemma {:induction false} SwitchConns(g: Gate, p: Policy, now: int)
    requires Refs(g) && Refs(Switch(g, p, now))
    requires BudgetsGrow(g, Installed(g, p, now)) && DevicesGrow(g, Installed(g, p, now))
    ensures SameConns(g, Switch(g, p, now))
  {
    hide Installed;
    SameBudgetRefs(g, Installed(g, p, now));
  }

  lemma {:induction false} SwitchListed(g: Gate, p: Policy, now: int)
    requires Refs(g) && Refs(Switch(g, p, now))
    requires InstallOk(g, p, g.pendingStart, Installed(g, p, now), |p.users|, 0)
    ensures var h := Switch(g, p, now);
            forall t :: t in h.devices ==>
              var d := h.deviceObjs[h.devices[t]];
              Listed(p, g.pendingStart, d, h.budgetObjs[d.budget])
  {
    hide Installed, BudgetsGrow, BudgetKeys, BudgetsSane, RestOk;
    var s, h := Installed(g, p, now), Switch(g, p, now);
    forall t | t in h.devices
      ensures Listed(p, g.pendingStart, h.deviceObjs[h.devices[t]], h.budgetObjs[h.deviceObjs[h.devices[t]].budget])
    {
      var d := s.deviceObjs[s.next[t]];
      assert Placed(p, g.pendingStart, s, |p.users|, 0, d);
      var i, j :| Before(p, i, j, |p.users|, 0) && ListedAt(p, g.pendingStart, i, j, d, s.budgetObjs[d.budget]);
      ListedSame(p, g.pendingStart, d, s.budgetObjs[d.budget], h.deviceObjs[h.devices[t]], s.budgetObjs[d.budget]);
    }
  }

  /** The world after a consumed snapshot is installed. */
  function Switched(w: World, p: Policy, now: int): World
    requires Refs(w.gate)
  {
    var w' := w.(gate := Switch(w.gate, p, now));
    if Enables(w.gate, p, now)
    then w'.(snapshot := Some(p), start := w.gate.pendingStart,
             control := Binding(p.node.value, Replaces(w.gate, p, now)))
    else w'.(snapshot := None)
  }

  lemma {:induction false} SwitchedInv(w: World, p: Policy, now: int)
    requires Inv(w) && w.control == Idle && w.gate.pendingStart > 0
    requires PolicyValid(p) && BudgetsAgree(w.gate, p.users) && RoomFor(w.gate, p)
    ensures Inv(Switched(w, p, now))
  {
    hide Names, AllSane, ActiveOk, MappedOk, DeadOk, DeviceCounts, BudgetCounts, TotalCounts, Refs;
    hide BytesOk, PolicyValid, Installed, NextOk, BudgetsGrow, BudgetKeys, BudgetsSane, DevicesGrow, RestOk, Listed;
    hide OpsOk, SameConns, BudgetsAgree, RoomFor, Replaces, Expired;
    var w' := Switched(w, p, now);
    SwitchKeeps(w.gate, p, now);
    InstalledOk(w.gate, p, now);
    SwitchBytes(w, w', Installed(w.gate, p, now));
    SwitchConns(w.gate, p, now);
    OpsSame(w, w');
    SwitchListed(w.gate, p, now);
  }

  lemma {:induction false} ApplyIsSwitched(w: World, p: Policy, hash: Hash, now: int)
    requires Inv(w) && w.control == Idle && PolicyValid(p)
    ensures var w1 := w.(gate := Consume(w.gate, p, hash), consumed := w.consumed + [hash]);
            var w' := ApplyStep(w, Some(p), hash, now);
            || w' == w
            || w' == w.(control := MustStop)
            || (Matches(w.gate, p) && p.seqNo == w.gate.seqNo + 1 &&
                (w' == w1.(control := MustStop) ||
                 (BudgetsAgree(w1.gate, p.users) && RoomFor(w1.gate, p) && w' == Switched(w1, p, now))))
  {
    hide Names, AllSane, ActiveOk, MappedOk, DeadOk, DeviceCounts, BudgetCounts, TotalCounts;
    hide OpsOk, BytesOk, SnapshotOk, PolicyValid, SeqOk, ControlOk, Installed, CountNew, Deactivate, Dropped;
  }

  lemma {:induction false} ApplyInv(w: World, p: Option<Policy>, hash: Hash, now: int)
    requires Inv(w)
    ensures Inv(ApplyStep(w, p, hash, now))
  {
    hide Names, AllSane, ActiveOk, MappedOk, DeadOk, DeviceCounts, BudgetCounts, TotalCounts;
    hide OpsOk, BytesOk, SnapshotOk, PolicyValid, SeqOk, BudgetsAgree, RoomFor, Switched, ApplyStep;
    var w' := ApplyStep(w, p, hash, now);
    if w.control != Idle || p.None? || !PolicyValid(p.value) {
      RefusedAtOnce(w, p, hash, now);
      ControlFree(w, w');
    } else {
      ApplyIsSwitched(w, p.value, hash, now);
      ControlFree(w, w.(control := MustStop));
      if Matches(w.gate, p.value) && p.value.seqNo == w.gate.seqNo + 1 {
        var w1 := w.(gate := Consume(w.gate, p.value, hash), consumed := w.consumed + [hash]);
        ConsumeInv(w, p.value, hash);
        ControlFree(w1, w1.(control := MustStop));
        if BudgetsAgree(w1.gate, p.value.users) && RoomFor(w1.gate, p.value) {
          SwitchedInv(w1, p.value, now);
        }
      }
    }
  }

  lemma {:induction false} RefusedAtOnce(w: World, p: Option<Policy>, hash: Hash, now: int)
    requires Refs(w.gate) && (w.control != Idle || p.None? || !PolicyValid(p.value))
    ensures ApplyStep(w, p, hash, now) == if w.control != Idle then w else w.(control := MustStop)
  {
    hide PolicyValid;
  }

  lemma {:induction false} ControlFree(w: World, w': World)
    requires Inv(w) && (w' == w || w' == w.(control := MustStop))
    ensures Inv(w')
  {
    hide GateInv, OpsOk, BytesOk, SnapshotOk, SeqOk;
    if w' != w {
      SameArenasInv(w, w');
      assert SeqOk(w') <==> SeqOk(w) by {
        SeqSame(w, w');
      }
    }
  }

  lemma {:induction false} SeqSame(w: World, w': World)
    requires w'.gate == w.gate && w'.consumed == w.consumed
    ensures SeqOk(w') <==> SeqOk(w)
  {
  }

  /** Every step, in every state, keeps the invariant. */
  lemma {:induction false} NextInv(w: World, s: Step)
    requires Inv(w)
    ensures Inv(Next(w, s))
  {
    hide Inv, BeginStep, ApplyStep, BindStep, StopStep, ResetStep, ReserveStep, DeliverStep, FinishStep;
    match s
    case Begin(r, hash, now) => BeginInv(w, r, hash, now);
    case Apply(p, hash, now) => ApplyInv(w, p, hash, now);
    case Bind(published, id, started) => BindInv(w, published, id, started);
    case Stop => StopInv(w, Idle);
    case ResetStart => StopInv(w, Resetting);
    case ResetTry => ResetInv(w);
    case ResetGiveUp => GiveUpInv(w);
    case Expire(now) => ExpireInv(w, now);
    case Attach(token, from, now) => AttachInv(w, token, from, now);
    case Close(c) => if c < |w.gate.connObjs| { CloseInv(w, c); }
    case Reserve(c, want, whole, now) => if c < |w.gate.connObjs| { ReserveInv(w, c, want, whole, now); }
    case Deliver(i, n) => if i < |w.ops| { DeliverInv(w, i, n); }
    case Finish(i, reported, failed) => if i < |w.ops| { FinishInv(w, i, reported, failed); }
    case Acknowledge(reports) => if reports.Some? { AcknowledgeInv(w, reports.value); }
  }

  lemma {:induction false} GiveUpInv(w: World)
    requires Inv(w)
    ensures Inv(w.(control := Idle))
  {
    hide GateInv, OpsOk, BytesOk, SnapshotOk;
    SameArenasInv(w, w.(control := Idle));
  }
}
