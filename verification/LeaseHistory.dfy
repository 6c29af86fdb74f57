// What one step may do to what came before it: budgets, and the numbered exchange.
module LeaseHistory {
  import opened Common
  import opened LeasePolicy
  import opened LeaseGate
  import opened LeaseInvariant
  import opened LeaseConnections
  import opened LeaseApply
  import opened LeaseRuns

  /** A budget keeps its terms, only gains use and grant, and never changes once forgotten. */
  predicate Kept(g: Gate, h: Gate, b: nat)
    requires b < |g.budgetObjs| <= |h.budgetObjs|
  {
    var x, y := g.budgetObjs[b], h.budgetObjs[b];
    && y.id == x.id && y.user == x.user && y.epoch == x.epoch && x.used <= y.used && x.grant <= y.grant
    && (!Mapped(g, b) ==> !Mapped(h, b) && y == x)
  }

  predicate Evolves(g: Gate, h: Gate) {
    |g.budgetObjs| <= |h.budgetObjs| && forall b :: 0 <= b < |g.budgetObjs| ==> Kept(g, h, b)
  }

  lemma {:induction false} EvolvesOnward(g: Gate, h: Gate, k: Gate)
    requires Evolves(g, h) && Evolves(h, k)
    ensures Evolves(g, k)
  {
    forall b | 0 <= b < |g.budgetObjs|
      ensures Kept(g, k, b)
    {
      assert Kept(g, h, b) && Kept(h, k, b);
    }
  }

  lemma {:induction false} FewerNames(g: Gate, h: Gate)
    requires h.budgetObjs == g.budgetObjs
    requires forall k :: k in h.budgets ==> k in g.budgets && h.budgets[k] == g.budgets[k]
    ensures Evolves(g, h)
  {
  }

  lemma {:induction false} OneBudget(g: Gate, h: Gate, b: nat)
    requires b < |g.budgetObjs| && h.budgets == g.budgets
    requires |h.budgetObjs| == |g.budgetObjs|
    requires forall x :: 0 <= x < |g.budgetObjs| && x != b ==> h.budgetObjs[x] == g.budgetObjs[x]
    requires Kept(g, h, b)
    ensures Evolves(g, h)
  {
  }

  lemma {:induction false} StopEvolves(g: Gate)
    requires Refs(g) && Names(g)
    ensures Evolves(g, StopRegion(g))
  {
    hide Deactivate;
    ValuesAreMapped(g);
  }

  lemma {:induction false} SwitchEvolves(g: Gate, p: Policy, now: int)
    requires Refs(g) && BudgetsGrow(g, Installed(g, p, now)) && BudgetKeys(g, Installed(g, p, now))
    ensures Evolves(g, Switch(g, p, now))
  {
    hide Installed, Deactivate, Dropped;
    var s, h := Installed(g, p, now), Switch(g, p, now);
    forall b | 0 <= b < |g.budgetObjs|
      ensures Kept(g, h, b)
    {
      assert BudgetPlace(g, s, b);
      assert s.budgetObjs[b].(active := false, grant := 0) == g.budgetObjs[b].(active := false, grant := 0);
    }
  }

  lemma {:induction false} ReserveEvolves(g: Gate, c: nat, want: nat, whole: bool, now: int)
    requires GateInv(g) && c < |g.connObjs|
    ensures Evolves(g, ReserveRegion(g, c, want, whole, now))
  {
    hide Names, AllSane, ActiveOk, MappedOk, DeviceCounts, BudgetCounts, TotalCounts;
    OneBudget(g, ReserveRegion(g, c, want, whole, now), BudgetOf(g, c));
  }

  lemma {:induction false} FinishEvolves(g: Gate, c: nat, reserved: nat, used: nat)
    requires GateInv(g) && c < |g.connObjs| && 1 <= reserved <= g.budgetObjs[BudgetOf(g, c)].reserved
    ensures Evolves(g, FinishRegion(g, c, reserved, used))
  {
    hide Names, AllSane, ActiveOk, MappedOk, DeviceCounts, BudgetCounts, TotalCounts, Sharing, Deactivate;
    OneBudget(g, FinishRegion(g, c, reserved, used), BudgetOf(g, c));
  }

  lemma {:induction false} AttachEvolves(g: Gate, token: string, from: Option<nat>, now: int)
    requires GateInv(g)
    ensures Evolves(g, AttachRegion(g, token, from, now))
  {
    hide Names, AllSane, ActiveOk, DeadOk, DeviceCounts, BudgetCounts, TotalCounts;
    var h := AttachRegion(g, token, from, now);
    if Admits(g, token, from, now) {
      OneBudget(g, h, g.deviceObjs[g.devices[token]].budget);
    } else {
      FewerNames(g, h);
    }
  }

  lemma {:induction false} CloseEvolves(g: Gate, c: nat)
    requires GateInv(g) && c < |g.connObjs|
    ensures Evolves(g, CloseRegion(g, c))
  {
    hide Names, AllSane, ActiveOk, MappedOk, DeadOk, DeviceCounts, BudgetCounts, TotalCounts;
    if g.connObjs[c].closed {
      FewerNames(g, CloseRegion(g, c));
    } else {
      OpenIsMapped(g, c);
      OneBudget(g, CloseRegion(g, c), BudgetOf(g, c));
    }
  }

  lemma {:induction false} ApplyEvolves(w: World, p: Option<Policy>, hash: Hash, now: int)
    requires Inv(w)
    ensures Evolves(w.gate, ApplyStep(w, p, hash, now).gate)
  {
    hide Names, AllSane, ActiveOk, MappedOk, DeadOk, DeviceCounts, BudgetCounts, TotalCounts;
    hide OpsOk, BytesOk, SnapshotOk, PolicyValid, SeqOk, BudgetsAgree, RoomFor, ApplyStep, Evolves;
    hide Installed, BudgetsGrow, BudgetKeys, BudgetsSane, DevicesGrow, NextOk, RestOk, Switch;
    FewerNames(w.gate, w.gate);
    if w.control != Idle || p.None? || !PolicyValid(p.value) {
      RefusedAtOnce(w, p, hash, now);
    } else {
      ApplyIsSwitched(w, p.value, hash, now);
      var g1 := Consume(w.gate, p.value, hash);
      FewerNames(w.gate, g1);
      if Matches(w.gate, p.value) && p.value.seqNo == w.gate.seqNo + 1 &&
         BudgetsAgree(g1, p.value.users) && RoomFor(g1, p.value) {
        SameGateInv(w.gate, g1);
        InstalledOk(g1, p.value, now);
        SwitchEvolves(g1, p.value, now);
        EvolvesOnward(w.gate, g1, Switch(g1, p.value, now));
      }
    }
  }

  lemma {:induction false} FinishStepEvolves(w: World, i: nat, reported: int, failed: bool)
    requires Inv(w) && i < |w.ops|
    ensures Evolves(w.gate, FinishStep(w, i, reported, failed).gate)
  {
    hide Names, AllSane, ActiveOk, MappedOk, DeadOk, DeviceCounts, BudgetCounts, TotalCounts;
    hide BytesOk, SnapshotOk, SeqOk, ControlOk, Evolves, FinishRegion;
    FinishBytes(w, i, reported, failed);
    ChargeIsWhole(w.ops[i].amount, reported, failed);
    FinishEvolves(w.gate, w.ops[i].conn, w.ops[i].amount, w.ops[i].amount);
  }

  lemma {:induction false} NextEvolves(w: World, s: Step)
    requires Inv(w)
    ensures Evolves(w.gate, Next(w, s).gate) && w.log <= Next(w, s).log
  {
    hide Names, AllSane, ActiveOk, MappedOk, DeadOk, DeviceCounts, BudgetCounts, TotalCounts;
    hide OpsOk, BytesOk, SnapshotOk, SeqOk, ControlOk, Evolves, PolicyValid, RequestValid, ReportsValid, Allowance;
    hide StopRegion, AttachRegion, CloseRegion, ReserveRegion, FinishRegion, Installed, Admits, Overdue, Deactivate;
    var w' := Next(w, s);
    match s
    case Apply(p, hash, now) => ApplyEvolves(w, p, hash, now);
    case Stop => StopEvolves(w.gate);
    case ResetStart => StopEvolves(w.gate); FewerNames(w.gate, w.gate);
    case Attach(token, from, now) => AttachEvolves(w.gate, token, from, now);
    case Close(c) =>
      FewerNames(w.gate, w.gate);
      if c < |w.gate.connObjs| { CloseEvolves(w.gate, c); }
    case Reserve(c, want, whole, now) =>
      FewerNames(w.gate, w.gate);
      if c < |w.gate.connObjs| { ReserveEvolves(w.gate, c, want, whole, now); }
    case Finish(i, reported, failed) =>
      FewerNames(w.gate, w.gate);
      if i < |w.ops| { FinishStepEvolves(w, i, reported, failed); }
    case _ => FewerNames(w.gate, w'.gate);
  }

  // ---- the numbered exchange ----

  /** Between resets, numbers only go up and what a number stands for is fixed. */
  predicate Continues(w: World, w': World) {
    && w.epoch <= w'.epoch
    && (w'.epoch == w.epoch ==>
          && w.consumed <= w'.consumed
          && (w.gate.boot != "" ==> w'.gate.boot == w.gate.boot)
          && (w.gate.host != "" ==> w'.gate.host == w.gate.host)
          && w.gate.pendingSeq <= w'.gate.pendingSeq
          && (w'.gate.pendingSeq == w.gate.pendingSeq ==>
                w'.gate.pendingStart == w.gate.pendingStart && w'.gate.pendingHash == w.gate.pendingHash))
  }

  lemma {:induction false} ContinuesOnward(u: World, v: World, w: World)
    requires Continues(u, v) && Continues(v, w)
    ensures Continues(u, w)
  {
  }

  lemma {:induction false} ApplyContinues(w: World, p: Option<Policy>, hash: Hash, now: int)
    requires Inv(w)
    ensures Continues(w, ApplyStep(w, p, hash, now)) && |ApplyStep(w, p, hash, now).consumed| <= |w.consumed| + 1
  {
    hide Names, AllSane, ActiveOk, MappedOk, DeadOk, DeviceCounts, BudgetCounts, TotalCounts;
    hide OpsOk, BytesOk, SnapshotOk, PolicyValid, BudgetsAgree, RoomFor, ApplyStep, Installed, Deactivate, Dropped;
    if w.control != Idle || p.None? || !PolicyValid(p.value) {
      RefusedAtOnce(w, p, hash, now);
    } else {
      ApplyIsSwitched(w, p.value, hash, now);
    }
  }

  lemma {:induction false} ConnectionContinues(w: World, s: Step)
    requires Inv(w) && (s.Attach? || s.Close? || s.Reserve? || s.Deliver? || s.Finish?)
    ensures SameSeq(w.gate, Next(w, s).gate) && Next(w, s).epoch == w.epoch && Next(w, s).consumed == w.consumed
  {
    hide Names, AllSane, ActiveOk, MappedOk, DeadOk, DeviceCounts, BudgetCounts, TotalCounts;
    hide OpsOk, BytesOk, SnapshotOk, ControlOk, Admits, Deactivate, Allowance, Sharing;
  }

  lemma {:induction false} NextContinues(w: World, s: Step)
    requires Inv(w)
    ensures Continues(w, Next(w, s))
    ensures Next(w, s).epoch == w.epoch ==> |Next(w, s).consumed| <= |w.consumed| + 1
  {
    hide Names, AllSane, ActiveOk, MappedOk, DeadOk, DeviceCounts, BudgetCounts, TotalCounts;
    hide OpsOk, BytesOk, SnapshotOk, ControlOk, PolicyValid, ReportsValid, Allowance;
    hide Installed, Admits, Overdue, Deactivate, ApplyStep, RetireBudgets, Quiet;
    hide AttachRegion, CloseRegion, ReserveStep, DeliverStep, FinishStep;
    if s.Apply? {
      ApplyContinues(w, s.p, s.hash, s.now);
    } else if s.Attach? || s.Close? || s.Reserve? || s.Deliver? || s.Finish? {
      ConnectionContinues(w, s);
    }
  }
}
