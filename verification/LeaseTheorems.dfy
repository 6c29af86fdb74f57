// What the lease gate promises over every run.
module LeaseTheorems {
  import opened Common
  import opened LeasePolicy
  import opened LeaseGate
  import opened LeaseInvariant
  import opened LeaseApply
  import opened LeaseRuns
  import opened LeaseHistory

  /** The states a run passes through, one step after another, from a new gate. */
  ghost predicate IsRun(ws: seq<World>, steps: seq<Step>) {
    && |ws| == |steps| + 1 && ws[0] == NEW_WORLD
    && forall i :: 0 <= i < |steps| ==> Goes(ws[i], steps[i], ws[i + 1])
  }

  ghost predicate Goes(w: World, s: Step, w': World) { Safe(w) && w' == Next(w, s) }

  lemma {:induction false} RunInv(ws: seq<World>, steps: seq<Step>, i: nat)
    requires IsRun(ws, steps) && i < |ws|
    ensures Inv(ws[i])
  {
    hide Inv, Next, Safe;
    if i == 0 {
      NewWorldInv();
    } else {
      RunInv(ws, steps, i - 1);
      assert Goes(ws[i - 1], steps[i - 1], ws[i - 1 + 1]);
      NextInv(ws[i - 1], steps[i - 1]);
    }
  }

  lemma {:induction false} RunHistory(ws: seq<World>, steps: seq<Step>, i: nat, j: nat)
    requires IsRun(ws, steps) && i <= j < |ws|
    ensures Evolves(ws[i].gate, ws[j].gate) && ws[i].log <= ws[j].log && Continues(ws[i], ws[j])
    decreases j
  {
    hide Inv, Next, Safe, Evolves, Continues;
    if i == j {
      FewerNames(ws[i].gate, ws[i].gate);
      ContinuesItself(ws[i]);
    } else {
      RunHistory(ws, steps, i, j - 1);
      RunInv(ws, steps, j - 1);
      assert Goes(ws[j - 1], steps[j - 1], ws[j - 1 + 1]);
      NextEvolves(ws[j - 1], steps[j - 1]);
      NextContinues(ws[j - 1], steps[j - 1]);
      EvolvesOnward(ws[i].gate, ws[j - 1].gate, ws[j].gate);
      ContinuesOnward(ws[i], ws[j - 1], ws[j]);
    }
  }

  lemma {:induction false} ContinuesItself(w: World)
    ensures Continues(w, w)
  {
  }

  // ---- quota ----

  /**
   * In every reachable state the bytes let through on a lease, settled and in
   * flight, fit in what is used and reserved, and that fits in the grant.
   */
  lemma {:induction false} QuotaConserved(ws: seq<World>, steps: seq<Step>, i: nat, b: nat)
    requires IsRun(ws, steps) && i < |ws| && b < |ws[i].gate.budgetObjs|
    ensures var x := ws[i].gate.budgetObjs[b];
            && 0 <= x.used && 0 <= x.reserved && x.used + x.reserved <= x.grant <= MAX_INTEGER
            && x.reserved == SumOps(ws[i].ops, b)
            && SumLog(ws[i].log, b) <= x.used
            && SumLog(ws[i].log, b) + SumInFlight(ws[i].ops, b) <= x.used + x.reserved <= x.grant
  {
    hide Names, ActiveOk, MappedOk, DeadOk, DeviceCounts, BudgetCounts, TotalCounts, SnapshotOk, SeqOk, IsRun;
    RunInv(ws, steps, i);
    assert Sane(ws[i].gate.budgetObjs[b]);
    InFlightBelow(ws[i].ops, b);
  }

  /** A budget object keeps its lease; its use, its grant and the bytes let through only grow. */
  lemma {:induction false} UseNeverShrinks(ws: seq<World>, steps: seq<Step>, i: nat, j: nat, b: nat)
    requires IsRun(ws, steps) && i <= j < |ws| && b < |ws[i].gate.budgetObjs|
    ensures b < |ws[j].gate.budgetObjs|
    ensures var x, y := ws[i].gate.budgetObjs[b], ws[j].gate.budgetObjs[b];
            y.id == x.id && y.user == x.user && y.epoch == x.epoch && x.used <= y.used && x.grant <= y.grant
    ensures SumLog(ws[i].log, b) <= SumLog(ws[j].log, b)
  {
    hide IsRun, Continues;
    RunHistory(ws, steps, i, j);
    assert Kept(ws[i].gate, ws[j].gate, b);
    LogGrows(ws[i].log, ws[j].log, b);
  }

  lemma {:induction false} LogGrows(a: seq<Delivery>, c: seq<Delivery>, b: nat)
    requires a <= c
    ensures SumLog(a, b) <= SumLog(c, b)
    decreases |c|
  {
    if |a| == |c| {
      assert a == c;
    } else {
      LogGrows(a, c[..|c| - 1], b);
    }
  }

  // ---- authorisation ----

  /** Whenever the lock is free, an active device is mapped, on a mapped, active and unspent lease. */
  lemma {:induction false} ActiveIsCurrent(ws: seq<World>, steps: seq<Step>, i: nat, d: nat)
    requires IsRun(ws, steps) && i < |ws| && d < |ws[i].gate.deviceObjs| && ws[i].gate.deviceObjs[d].active
    ensures var g, b := ws[i].gate, ws[i].gate.deviceObjs[d].budget;
            && Live(g, d) && b < |g.budgetObjs| && Mapped(g, b)
            && g.budgetObjs[b].active && g.budgetObjs[b].used < g.budgetObjs[b].grant
  {
    hide IsRun, AllSane, DeadOk, DeviceCounts, BudgetCounts, TotalCounts, BytesOk, OpsOk, SnapshotOk, SeqOk, ControlOk;
    RunInv(ws, steps, i);
    assert Live(ws[i].gate, d);
  }

  /** Step k accepted a snapshot that enables service. */
  ghost predicate Accepts(ws: seq<World>, steps: seq<Step>, k: nat, p: Policy, start: int) {
    && k < |steps| < |ws|
    && steps[k].Apply? && steps[k].p == Some(p) && ws[k].control == Idle && PolicyValid(p)
    && Refs(ws[k].gate) && ApplyRegion(ws[k].gate, p, steps[k].hash, steps[k].now).1 == Accepted
    && Enables(ws[k].gate, p, steps[k].now) && start == ws[k].gate.pendingStart
  }

  /** Step m withdraws or replaces the snapshot in force. */
  ghost predicate Supersedes(w: World, s: Step) {
    || s.Stop?
    || (s.ResetStart? && w.control == Idle)
    || (s.Apply? && w.control == Idle && s.p.Some? && PolicyValid(s.p.value)
        && Refs(w.gate) && ApplyRegion(w.gate, s.p.value, s.hash, s.now).1 == Accepted)
  }

  /** The snapshot in force was accepted by step k and not withdrawn or replaced up to state i. */
  ghost predicate InForce(ws: seq<World>, steps: seq<Step>, k: nat, i: nat, p: Policy, start: int) {
    && k < i < |ws| == |steps| + 1 && Accepts(ws, steps, k, p, start)
    && forall m :: k < m < i ==> !Supersedes(ws[m], steps[m])
  }

  lemma {:induction false} NextSnapshot(w: World, s: Step)
    requires Inv(w)
    ensures var w' := Next(w, s);
            (w'.snapshot == w.snapshot && w'.start == w.start && !Supersedes(w, s)) ||
            (Supersedes(w, s) && (w'.snapshot.None? ||
               (s.Apply? && w'.snapshot == s.p && Enables(w.gate, s.p.value, s.now)
                     && w'.start == w.gate.pendingStart)))
  {
    hide Names, AllSane, ActiveOk, MappedOk, DeadOk, DeviceCounts, BudgetCounts, TotalCounts;
    hide OpsOk, BytesOk, SnapshotOk, SeqOk, ControlOk, PolicyValid, RequestValid, ReportsValid, Allowance;
    hide Installed, Admits, Overdue, Deactivate, RetireBudgets, Quiet, ApplyRegion, Enables, BeginRegion;
  }

  lemma {:induction false} SnapshotOrigin(ws: seq<World>, steps: seq<Step>, i: nat) returns (k: nat)
    requires IsRun(ws, steps) && i < |ws| && ws[i].snapshot.Some?
    ensures InForce(ws, steps, k, i, ws[i].snapshot.value, ws[i].start)
  {
    hide Inv, Next, Safe, PolicyValid, Refs, ApplyRegion, Enables;
    assert i > 0;
    RunInv(ws, steps, i - 1);
    assert Goes(ws[i - 1], steps[i - 1], ws[i - 1 + 1]);
    NextSnapshot(ws[i - 1], steps[i - 1]);
    if Supersedes(ws[i - 1], steps[i - 1]) {
      k := i - 1;
    } else {
      k := SnapshotOrigin(ws, steps, i - 1);
    }
  }

  /**
   * A byte is granted, even through an old connection, only to a device and a
   * lease listed in the latest accepted snapshot, with no stop since, and only
   * before the deadline that snapshot gives the device.
   */
  lemma {:induction false} GrantIsAuthorized(ws: seq<World>, steps: seq<Step>, i: nat, c: nat, want: nat,
                                             whole: bool, now: int)
    returns (k: nat, u: nat, v: nat)
    requires IsRun(ws, steps) && i < |ws| && Safe(ws[i]) && c < |ws[i].gate.connObjs|
    requires Allowance(ws[i].gate, c, want, whole, now) > 0
    ensures ws[i].snapshot.Some? && InForce(ws, steps, k, i, ws[i].snapshot.value, ws[i].start)
    ensures var g, p := ws[i].gate, ws[i].snapshot.value;
            var d := g.deviceObjs[g.connObjs[c].device];
            && Live(g, g.connObjs[c].device) && Mapped(g, d.budget)
            && ListedAt(p, ws[i].start, u, v, d, g.budgetObjs[d.budget])
            && 0 <= now < DeviceDeadline(ws[i].start, p, p.users[u], DeviceAt(p, u, v))
  {
    hide Names, AllSane, DeadOk, DeviceCounts, BudgetCounts, TotalCounts, OpsOk, BytesOk, SeqOk, IsRun;
    hide InForce, PolicyValid, DeviceDeadline, Token;
    RunInv(ws, steps, i);
    var g := ws[i].gate;
    var d := g.connObjs[c].device;
    assert Live(g, d);
    assert ws[i].snapshot.Some?;
    k := SnapshotOrigin(ws, steps, i);
    var t := g.deviceObjs[d].token;
    assert t in g.devices && g.devices[t] == d;
    assert Listed(ws[i].snapshot.value, ws[i].start, g.deviceObjs[d], g.budgetObjs[g.deviceObjs[d].budget]);
    var x, y :| ListedAt(ws[i].snapshot.value, ws[i].start, x, y, g.deviceObjs[d],
          g.budgetObjs[g.deviceObjs[d].budget]);
    u, v := x, y;
  }

  /**
   * With a local clock at the server's rate (`offset` apart) and a request that
   * began before the snapshot was generated, no byte is granted at or after the
   * server's absolute expiry of the lease or of the device, timers or not.
   */
  lemma {:induction false} GrantBeforeExpiry(ws: seq<World>, steps: seq<Step>, i: nat, c: nat, want: nat,
                                             whole: bool, now: int, offset: int)
    returns (u: nat, v: nat)
    requires IsRun(ws, steps) && i < |ws| && Safe(ws[i]) && c < |ws[i].gate.connObjs|
    requires Allowance(ws[i].gate, c, want, whole, now) > 0
    requires ws[i].snapshot.Some? ==> GeneratedAfter(ws[i].snapshot.value, ws[i].start, offset)
    ensures ws[i].snapshot.Some?
    ensures var g, p := ws[i].gate, ws[i].snapshot.value;
            && InPolicy(p, u, v)
            && g.deviceObjs[g.connObjs[c].device].token == Token(DeviceAt(p, u, v))
            && g.budgetObjs[BudgetOf(g, c)].id == p.users[u].lease.id
            && now + offset < p.users[u].lease.expires * SECOND
            && (DeviceAt(p, u, v).expires != 0 ==> now + offset < DeviceAt(p, u, v).expires * SECOND)
  {
    hide IsRun, InForce, DeviceDeadline, Token, Allowance, GeneratedAfter, OpsOk;
    var k, x, y := GrantIsAuthorized(ws, steps, i, c, want, whole, now);
    u, v := x, y;
    var p := ws[i].snapshot.value;
    DeadlineIsSafe(ws[i].start, p, p.users[u], DeviceAt(p, u, v), offset, now);
  }

  /** A retried request keeps the instant, and the bytes, it began with. */
  lemma {:induction false} RetryKeepsStart(ws: seq<World>, steps: seq<Step>, i: nat, j: nat)
    requires IsRun(ws, steps) && i <= j < |ws| && ws[j].epoch == ws[i].epoch
    requires ws[j].gate.pendingSeq == ws[i].gate.pendingSeq
    ensures ws[j].gate.pendingStart == ws[i].gate.pendingStart && ws[j].gate.pendingHash == ws[i].gate.pendingHash
  {
    hide IsRun, Evolves;
    RunHistory(ws, steps, i, j);
  }

  // ---- replay ----

  /** Step i consumed snapshot p. */
  ghost predicate Consumes(ws: seq<World>, steps: seq<Step>, i: nat, p: Policy) {
    && i < |steps| < |ws|
    && steps[i].Apply? && steps[i].p == Some(p) && ws[i + 1].consumed == ws[i].consumed + [steps[i].hash]
  }

  /** The numbers of the exchange, in every reachable state. */
  lemma {:induction false} NumbersInStep(ws: seq<World>, steps: seq<Step>, i: nat, j: nat)
    requires IsRun(ws, steps) && i <= j < |ws| && ws[j].epoch == ws[i].epoch
    ensures ws[i].consumed <= ws[j].consumed && |ws[j].consumed| == ws[j].gate.seqNo
    ensures ws[j].gate.pendingSeq == ws[j].gate.seqNo || ws[j].gate.pendingSeq == ws[j].gate.seqNo + 1
    ensures ws[i].gate.boot != "" ==> ws[j].gate.boot == ws[i].gate.boot
    ensures ws[i].gate.host != "" ==> ws[j].gate.host == ws[i].gate.host
  {
    hide IsRun, Evolves, GateInv, OpsOk, BytesOk, SnapshotOk;
    RunHistory(ws, steps, i, j);
    RunInv(ws, steps, j);
  }

  /** One step consumes at most one response, and only the one that was next. */
  lemma {:induction false} ConsumesNext(ws: seq<World>, steps: seq<Step>, i: nat, p: Policy)
    requires IsRun(ws, steps) && Consumes(ws, steps, i, p)
    ensures PolicyValid(p) && p.seqNo == ws[i].gate.seqNo + 1 == ws[i + 1].gate.seqNo && ws[i + 1].epoch == ws[i].epoch
  {
    hide Names, AllSane, ActiveOk, MappedOk, DeadOk, DeviceCounts, BudgetCounts, TotalCounts;
    hide OpsOk, BytesOk, SnapshotOk, PolicyValid, BudgetsAgree, RoomFor, ApplyStep, Installed, Deactivate, Dropped;
    RunInv(ws, steps, i);
    assert Goes(ws[i], steps[i], ws[i + 1]);
    if ws[i].control != Idle || !PolicyValid(p) {
      RefusedAtOnce(ws[i], Some(p), steps[i].hash, steps[i].now);
    } else {
      ApplyIsSwitched(ws[i], p, steps[i].hash, steps[i].now);
    }
  }

  /**
   * A consumed snapshot presented again before a reset, whatever happened in
   * between, changes nothing in the gate; and no later snapshot is consumed
   * under its number.
   */
  lemma {:induction false} ReplayIsInert(ws: seq<World>, steps: seq<Step>, i: nat, j: nat, p: Policy)
    requires IsRun(ws, steps) && Consumes(ws, steps, i, p)
    requires i < j < |steps| && ws[j].epoch == ws[i].epoch && steps[j].Apply?
    ensures steps[j].p == Some(p) ==> ws[j + 1].gate == ws[j].gate
    ensures forall q :: Consumes(ws, steps, j, q) ==> q.seqNo > p.seqNo
  {
    hide Inv, Evolves, PolicyValid, Next;
    ConsumesNext(ws, steps, i, p);
    RunHistory(ws, steps, i, i + 1);
    RunHistory(ws, steps, i + 1, j);
    NumbersInStep(ws, steps, i + 1, i + 1);
    NumbersInStep(ws, steps, i + 1, j);
    forall q | Consumes(ws, steps, j, q)
      ensures q.seqNo > p.seqNo
    {
      ConsumesNext(ws, steps, j, q);
    }
    if steps[j].p == Some(p) {
      RunInv(ws, steps, j);
      assert Goes(ws[j], steps[j], ws[j + 1]);
      OldNumberIsInert(ws[j], p, steps[j].hash, steps[j].now);
    }
  }

  lemma {:induction false} OldNumberIsInert(w: World, p: Policy, hash: Hash, now: int)
    requires Inv(w) && p.seqNo <= w.gate.seqNo
    ensures Next(w, Apply(Some(p), hash, now)).gate == w.gate
  {
    hide Names, AllSane, ActiveOk, MappedOk, DeadOk, DeviceCounts, BudgetCounts, TotalCounts;
    hide OpsOk, BytesOk, SnapshotOk, PolicyValid, BudgetsAgree, RoomFor, ApplyStep, Installed, Deactivate, Dropped;
    hide Switched;
    if w.control != Idle || !PolicyValid(p) {
      RefusedAtOnce(w, Some(p), hash, now);
    } else {
      ApplyIsSwitched(w, p, hash, now);
    }
  }

  // ---- connections and forgetting ----

  /** Connections are counted three ways that agree, within the caps. */
  lemma {:induction false} ConnectionsCounted(ws: seq<World>, steps: seq<Step>, i: nat)
    requires IsRun(ws, steps) && i < |ws|
    ensures var g := ws[i].gate;
            && g.connections == |Open(g.connObjs)| == SumCounts(g.budgetObjs) && g.connections <= MAX_CONNECTIONS
            && (forall d :: 0 <= d < |g.deviceObjs| ==>
                  g.deviceObjs[d].connections == OpenOf(g.connObjs, d)
                      && |g.deviceObjs[d].connections| <= MAX_PER_DEVICE)
            && Refs(g)
            && (forall b :: 0 <= b < |g.budgetObjs| ==>
                  g.budgetObjs[b].connections == |OpenOn(g.connObjs, g.deviceObjs, b)|)
  {
    hide IsRun, Names, AllSane, ActiveOk, MappedOk, DeadOk, BytesOk, OpsOk, SnapshotOk, SeqOk, ControlOk;
    RunInv(ws, steps, i);
  }

  /** Nothing refers to budget b: no open connection, no operation in flight, no mapped device. */
  predicate Unused(w: World, b: nat) {
    && (forall c :: 0 <= c < |w.gate.connObjs| && !w.gate.connObjs[c].closed ==>
          w.gate.connObjs[c].device < |w.gate.deviceObjs| && w.gate.deviceObjs[w.gate.connObjs[c].device].budget != b)
    && (forall o :: 0 <= o < |w.ops| ==> w.ops[o].budget != b)
    && (forall t :: t in w.gate.devices ==>
          w.gate.devices[t] < |w.gate.deviceObjs| && w.gate.deviceObjs[w.gate.devices[t]].budget != b)
  }

  lemma {:induction false} ForgottenIsUnused(w: World, b: nat)
    requires Inv(w) && b < |w.gate.budgetObjs| && !Mapped(w.gate, b)
    ensures Unused(w, b)
  {
    hide Names, AllSane, ActiveOk, DeviceCounts, TotalCounts, SnapshotOk, SeqOk, ControlOk;
    var g := w.gate;
    assert Retirable(g.budgetObjs[b]);
    assert OpenOn(g.connObjs, g.deviceObjs, b) == {};
    forall c | 0 <= c < |g.connObjs| && !g.connObjs[c].closed
      ensures g.deviceObjs[g.connObjs[c].device].budget != b
    {
      assert c !in OpenOn(g.connObjs, g.deviceObjs, b);
    }
    forall o | 0 <= o < |w.ops|
      ensures w.ops[o].budget != b
    {
      SumOpsWithout(w.ops, o, b);
    }
  }

  /** A budget once forgotten is unused and keeps its final count for the rest of the run. */
  lemma {:induction false} ForgottenIsFinal(ws: seq<World>, steps: seq<Step>, i: nat, j: nat, b: nat)
    requires IsRun(ws, steps) && i <= j < |ws| && b < |ws[i].gate.budgetObjs| && !Mapped(ws[i].gate, b)
    ensures b < |ws[j].gate.budgetObjs| && !Mapped(ws[j].gate, b)
    ensures ws[j].gate.budgetObjs[b] == ws[i].gate.budgetObjs[b]
    ensures Unused(ws[j], b)
  {
    hide IsRun, Inv, Continues, Unused;
    RunHistory(ws, steps, i, j);
    assert Kept(ws[i].gate, ws[j].gate, b);
    RunInv(ws, steps, j);
    ForgottenIsUnused(ws[j], b);
  }

  /** Only a report of the exact use, or a reset, forgets a budget. */
  lemma {:induction false} ForgottenOnlyWhenReported(ws: seq<World>, steps: seq<Step>, i: nat, b: nat)
    requires IsRun(ws, steps) && i < |steps| < |ws| && b < |ws[i].gate.budgetObjs| <= |ws[i + 1].gate.budgetObjs|
    requires Mapped(ws[i].gate, b) && !Mapped(ws[i + 1].gate, b)
    ensures var x := ws[i].gate.budgetObjs[b];
            || (steps[i].ResetTry? && ws[i + 1].epoch == ws[i].epoch + 1)
            || (steps[i].Acknowledge? && steps[i].reports.Some? && Report(x.id, x.used) in steps[i].reports.value
                && Retirable(x))
  {
    hide Inv, Next, Continues, Safe, Retirable, Kept, IsRun;
    RunInv(ws, steps, i);
    RunHistory(ws, steps, i, i + 1);
    StepOf(ws, steps, i);
    NextKeepsNames(ws[i], steps[i]);
    SameName(ws[i].gate, ws[i + 1].gate, b);
  }

  lemma {:induction false} StepOf(ws: seq<World>, steps: seq<Step>, i: nat)
    requires IsRun(ws, steps) && i < |steps|
    ensures Safe(ws[i]) && ws[i + 1] == Next(ws[i], steps[i])
  {
    hide Safe, Next;
    assert Goes(ws[i], steps[i], ws[i + 1]);
  }

  lemma {:induction false} SameName(g: Gate, h: Gate, b: nat)
    requires Evolves(g, h) && b < |g.budgetObjs|
    ensures h.budgetObjs[b].id == g.budgetObjs[b].id
  {
    assert Kept(g, h, b);
  }

  lemma {:induction false} NextKeepsNames(w: World, s: Step)
    requires Inv(w)
    ensures var g, h := w.gate, Next(w, s).gate;
            forall k :: k in g.budgets ==>
              || (k in h.budgets && h.budgets[k] == g.budgets[k])
              || (s.ResetTry? && Next(w, s).epoch == w.epoch + 1)
              || (s.Acknowledge? && s.reports.Some? && g.budgets[k] < |g.budgetObjs|
                  && Report(k, g.budgetObjs[g.budgets[k]].used) in s.reports.value
                  && Retirable(g.budgetObjs[g.budgets[k]]))
  {
    hide Names, AllSane, ActiveOk, MappedOk, DeadOk, DeviceCounts, BudgetCounts, TotalCounts;
    hide OpsOk, BytesOk, SnapshotOk, SeqOk, ControlOk, PolicyValid, RequestValid, ReportsValid, Allowance;
    hide Installed, Admits, Overdue, Deactivate, RetireBudgets, Quiet, ApplyStep;
    if s.Apply? {
      ApplyKeepsNames(w, s.p, s.hash, s.now);
    }
  }

  lemma {:induction false} ApplyKeepsNames(w: World, p: Option<Policy>, hash: Hash, now: int)
    requires Inv(w)
    ensures forall k :: k in w.gate.budgets ==>
              k in ApplyStep(w, p, hash, now).gate.budgets
                  && ApplyStep(w, p, hash, now).gate.budgets[k] == w.gate.budgets[k]
  {
    hide Names, AllSane, ActiveOk, MappedOk, DeadOk, DeviceCounts, BudgetCounts, TotalCounts;
    hide OpsOk, BytesOk, SnapshotOk, PolicyValid, SeqOk, BudgetsAgree, RoomFor, ApplyStep;
    hide Installed, BudgetsGrow, BudgetsSane, DevicesGrow, NextOk, RestOk, Deactivate, Dropped;
    if w.control != Idle || p.None? || !PolicyValid(p.value) {
      RefusedAtOnce(w, p, hash, now);
    } else {
      ApplyIsSwitched(w, p.value, hash, now);
      var g1 := Consume(w.gate, p.value, hash);
      if Matches(w.gate, p.value) && p.value.seqNo == w.gate.seqNo + 1 &&
         BudgetsAgree(g1, p.value.users) && RoomFor(g1, p.value) {
        SameGateInv(w.gate, g1);
        InstalledOk(g1, p.value, now);
      }
    }
  }
}
