// What holds of the gate whenever its lock is free, and why every region keeps it.
module LeaseInvariant {
  import opened Common
  import opened LeasePolicy
  import opened LeaseGate

  predicate Mapped(g: Gate, b: nat)
    requires b < |g.budgetObjs|
  {
    g.budgetObjs[b].id in g.budgets && g.budgets[g.budgetObjs[b].id] == b
  }

  predicate Live(g: Gate, d: nat)
    requires d < |g.deviceObjs|
  {
    g.deviceObjs[d].token in g.devices && g.devices[g.deviceObjs[d].token] == d
  }

  /** Map keys are the names of what they point to. */
  predicate Names(g: Gate)
    requires Refs(g)
  {
    && (forall k :: k in g.budgets ==> g.budgetObjs[g.budgets[k]].id == k)
    && (forall t :: t in g.devices ==> g.deviceObjs[g.devices[t]].token == t)
  }

  predicate Sane(b: Budget) {
    && IdValid(b.id)
    && 0 <= b.used && 0 <= b.reserved && b.used + b.reserved <= b.grant <= MAX_INTEGER
  }

  predicate AllSane(g: Gate) {
    forall b :: 0 <= b < |g.budgetObjs| ==> Sane(g.budgetObjs[b])
  }

  /** An active device is mapped, and its lease has bytes left. */
  predicate ActiveOk(g: Gate)
    requires Refs(g)
  {
    forall d :: 0 <= d < |g.deviceObjs| && g.deviceObjs[d].active ==>
      Live(g, d) && g.budgetObjs[g.deviceObjs[d].budget].used < g.budgetObjs[g.deviceObjs[d].budget].grant
  }

  /** A mapped device's budget is mapped and active. */
  predicate MappedOk(g: Gate)
    requires Refs(g)
  {
    forall t :: t in g.devices ==>
      Mapped(g, g.deviceObjs[g.devices[t]].budget) && g.budgetObjs[g.deviceObjs[g.devices[t]].budget].active
  }

  /** A budget outside the map is inactive and nothing refers to it any more. */
  predicate DeadOk(g: Gate) {
    forall b :: 0 <= b < |g.budgetObjs| && !Mapped(g, b) ==> Retirable(g.budgetObjs[b])
  }

  // ---- connection counts ----

  function Open(cs: seq<Conn>): set<nat> {
    set c | 0 <= c < |cs| && !cs[c].closed
  }

  function OpenOf(cs: seq<Conn>, d: nat): set<nat> {
    set c | 0 <= c < |cs| && !cs[c].closed && cs[c].device == d
  }

  function OpenOn(cs: seq<Conn>, ds: seq<Device>, b: nat): set<nat>
    requires forall c :: 0 <= c < |cs| ==> cs[c].device < |ds|
  {
    set c | 0 <= c < |cs| && !cs[c].closed && ds[cs[c].device].budget == b
  }

  function SumCounts(bs: seq<Budget>): int {
    if |bs| == 0 then 0 else SumCounts(bs[..|bs| - 1]) + bs[|bs| - 1].connections
  }

  predicate DeviceCounts(g: Gate) {
    forall d :: 0 <= d < |g.deviceObjs| ==>
      g.deviceObjs[d].connections == OpenOf(g.connObjs, d) && |g.deviceObjs[d].connections| <= MAX_PER_DEVICE
  }

  predicate BudgetCounts(g: Gate)
    requires Refs(g)
  {
    forall b :: 0 <= b < |g.budgetObjs| ==> g.budgetObjs[b].connections == |OpenOn(g.connObjs, g.deviceObjs, b)|
  }

  predicate TotalCounts(g: Gate) {
    g.connections == |Open(g.connObjs)| == SumCounts(g.budgetObjs) && g.connections <= MAX_CONNECTIONS
  }

  predicate Counted(g: Gate)
    requires Refs(g)
  {
    DeviceCounts(g) && BudgetCounts(g) && TotalCounts(g)
  }

  predicate GateInv(g: Gate) {
    && Refs(g) && Names(g) && AllSane(g) && ActiveOk(g) && MappedOk(g) && DeadOk(g)
    && Counted(g) && |g.budgets| <= MAX_BUDGETS
  }

  lemma {:induction false} NewGateInv()
    ensures GateInv(NEW_GATE)
  {
  }

  /** Fields the gate's invariant does not speak of. */
  lemma {:induction false} SameGateInv(g: Gate, h: Gate)
    requires GateInv(g)
    requires h.budgets == g.budgets && h.devices == g.devices && h.connections == g.connections
    requires h.budgetObjs == g.budgetObjs && h.deviceObjs == g.deviceObjs && h.connObjs == g.connObjs
    ensures GateInv(h)
  {
    assert forall b :: 0 <= b < |g.budgetObjs| ==> (Mapped(h, b) <==> Mapped(g, b));
    assert forall d :: 0 <= d < |g.deviceObjs| ==> (Live(h, d) <==> Live(g, d));
  }

  // ---- regions that only switch things off ----

  /** Nothing but `active` flags went down. */
  predicate OnlyOff(g: Gate, h: Gate) {
    && h.connObjs == g.connObjs && h.connections == g.connections
    && |h.budgetObjs| == |g.budgetObjs| && |h.deviceObjs| == |g.deviceObjs|
    && (forall b :: 0 <= b < |g.budgetObjs| ==>
          h.budgetObjs[b].(active := false) == g.budgetObjs[b].(active := false) &&
          (h.budgetObjs[b].active ==> g.budgetObjs[b].active))
    && (forall d :: 0 <= d < |g.deviceObjs| ==>
          h.deviceObjs[d].(active := false) == g.deviceObjs[d].(active := false) &&
          (h.deviceObjs[d].active ==> g.deviceObjs[d].active))
  }

  lemma {:induction false} SameCounts(bs: seq<Budget>, cs: seq<Budget>)
    requires |bs| == |cs| && forall b :: 0 <= b < |bs| ==> bs[b].connections == cs[b].connections
    ensures SumCounts(bs) == SumCounts(cs)
  {
    if |bs| == 0 {
    } else {
      SameCounts(bs[..|bs| - 1], cs[..|cs| - 1]);
    }
  }

  lemma {:induction false} OffKeepsCounts(g: Gate, h: Gate)
    requires Refs(g) && Refs(h) && Counted(g) && OnlyOff(g, h)
    ensures Counted(h)
  {
    SameCounts(g.budgetObjs, h.budgetObjs);
    forall b | 0 <= b < |h.budgetObjs|
      ensures h.budgetObjs[b].connections == |OpenOn(h.connObjs, h.deviceObjs, b)|
    {
      assert h.budgetObjs[b].connections == g.budgetObjs[b].connections;
      assert OpenOn(h.connObjs, h.deviceObjs, b) == OpenOn(g.connObjs, g.deviceObjs, b);
    }
    forall d | 0 <= d < |h.deviceObjs|
      ensures h.deviceObjs[d].connections == OpenOf(h.connObjs, d) && |h.deviceObjs[d].connections| <= MAX_PER_DEVICE
    {
      assert h.deviceObjs[d].connections == g.deviceObjs[d].connections;
    }
  }

  lemma {:induction false} OffKeepsSane(g: Gate, h: Gate)
    requires AllSane(g) && OnlyOff(g, h)
    ensures AllSane(h)
  {
    forall b | 0 <= b < |h.budgetObjs|
      ensures Sane(h.budgetObjs[b])
    {
      assert h.budgetObjs[b].(active := false) == g.budgetObjs[b].(active := false);
    }
  }

  lemma {:induction false} OffKeepsActive(g: Gate, h: Gate)
    requires Refs(g) && Refs(h) && ActiveOk(g) && OnlyOff(g, h) && h.devices == g.devices
    ensures ActiveOk(h)
  {
    forall d | 0 <= d < |h.deviceObjs| && h.deviceObjs[d].active
      ensures Live(h, d) && h.budgetObjs[h.deviceObjs[d].budget].used < h.budgetObjs[h.deviceObjs[d].budget].grant
    {
      assert Live(g, d);
      assert h.budgetObjs[h.deviceObjs[d].budget].(active := false) ==
             g.budgetObjs[g.deviceObjs[d].budget].(active := false);
    }
  }

  /** Whatever left the budget map was retirable. */
  lemma {:induction false} OffKeepsDead(g: Gate, h: Gate)
    requires DeadOk(g) && OnlyOff(g, h)
    requires forall b :: 0 <= b < |g.budgetObjs| && Mapped(g, b) && !Mapped(h, b) ==> Retirable(h.budgetObjs[b])
    ensures DeadOk(h)
  {
    forall b | 0 <= b < |h.budgetObjs| && !Mapped(h, b)
      ensures Retirable(h.budgetObjs[b])
    {
      assert h.budgetObjs[b].(active := false) == g.budgetObjs[b].(active := false);
      assert !Mapped(g, b) ==> Retirable(g.budgetObjs[b]);
    }
  }

  lemma {:induction false} OffKeepsNames(g: Gate, h: Gate)
    requires Refs(g) && Refs(h) && Names(g) && OnlyOff(g, h)
    requires forall k :: k in h.budgets ==> k in g.budgets && h.budgets[k] == g.budgets[k]
    requires forall t :: t in h.devices ==> t in g.devices && h.devices[t] == g.devices[t]
    ensures Names(h)
  {
    forall k | k in h.budgets
      ensures h.budgetObjs[h.budgets[k]].id == k
    {
      assert h.budgetObjs[h.budgets[k]].(active := false) == g.budgetObjs[g.budgets[k]].(active := false);
    }
    forall t | t in h.devices
      ensures h.deviceObjs[h.devices[t]].token == t
    {
      assert h.deviceObjs[h.devices[t]].(active := false) == g.deviceObjs[g.devices[t]].(active := false);
    }
  }

  lemma {:induction false} OffKeepsMapped(g: Gate, h: Gate)
    requires Refs(g) && Refs(h) && MappedOk(g) && OnlyOff(g, h) && h.devices == g.devices
    requires h.budgetObjs == g.budgetObjs
    requires forall b :: 0 <= b < |g.budgetObjs| && Mapped(g, b) && g.budgetObjs[b].active ==> Mapped(h, b)
    ensures MappedOk(h)
  {
    forall t | t in h.devices
      ensures Mapped(h, h.deviceObjs[h.devices[t]].budget) && h.budgetObjs[h.deviceObjs[h.devices[t]].budget].active
    {
      assert h.deviceObjs[h.devices[t]].(active := false) == g.deviceObjs[g.devices[t]].(active := false);
      assert Mapped(g, g.deviceObjs[g.devices[t]].budget);
    }
  }

  lemma {:induction false} StopSwitchesOff(g: Gate)
    requires Refs(g) && ActiveOk(g) && DeadOk(g)
    ensures OnlyOff(g, StopRegion(g))
    ensures forall d :: 0 <= d < |g.deviceObjs| ==> !StopRegion(g).deviceObjs[d].active
    ensures forall b :: 0 <= b < |g.budgetObjs| ==> !StopRegion(g).budgetObjs[b].active
  {
    forall d | 0 <= d < |g.deviceObjs| && g.deviceObjs[d].active
      ensures d in g.devices.Values
    {
      assert g.devices[g.deviceObjs[d].token] == d;
    }
    forall b | 0 <= b < |g.budgetObjs| && g.budgetObjs[b].active
      ensures b in g.budgets.Values
    {
      assert g.budgets[g.budgetObjs[b].id] == b;
    }
  }

  lemma {:induction false} StopKeeps(g: Gate)
    requires GateInv(g)
    ensures GateInv(StopRegion(g))
  {
    var h := StopRegion(g);
    StopSwitchesOff(g);
    OffKeepsCounts(g, h);
    OffKeepsSane(g, h);
    OffKeepsNames(g, h);
    assert DeadOk(h) by {
      OffKeepsDead(g, h);
    }
  }

  lemma {:induction false} DeactivateIsOff(g: Gate, refs: set<nat>)
    requires Refs(g)
    ensures var h := g.(deviceObjs := Deactivate(g.deviceObjs, refs)); Refs(h) && OnlyOff(g, h)
  {
  }

  /** Switching off some devices keeps everything. */
  lemma {:induction false} DeactivateKeeps(g: Gate, refs: set<nat>)
    requires GateInv(g)
    ensures GateInv(g.(deviceObjs := Deactivate(g.deviceObjs, refs)))
    ensures OnlyOff(g, g.(deviceObjs := Deactivate(g.deviceObjs, refs)))
  {
    hide Names, ActiveOk, MappedOk, DeadOk, DeviceCounts, BudgetCounts, TotalCounts, OnlyOff, Refs, Deactivate;
    var h := g.(deviceObjs := Deactivate(g.deviceObjs, refs));
    DeactivateIsOff(g, refs);
    OffKeepsCounts(g, h);
    OffKeepsNames(g, h);
    OffKeepsActive(g, h);
    OffKeepsMapped(g, h);
    OffKeepsDead(g, h);
  }

  lemma {:induction false} ExpireKeeps(g: Gate, now: int)
    requires GateInv(g)
    ensures GateInv(ExpireRegion(g, now)) && OnlyOff(g, ExpireRegion(g, now))
  {
    DeactivateKeeps(g, Overdue(g, now));
  }

  /** A round of the reset loop, once stop has switched everything off. */
  lemma {:induction false} ResetKeeps(g: Gate)
    requires GateInv(g)
    requires forall d :: 0 <= d < |g.deviceObjs| ==> !g.deviceObjs[d].active
    requires forall b :: 0 <= b < |g.budgetObjs| ==> !g.budgetObjs[b].active
    ensures GateInv(ResetRegion(g)) && OnlyOff(g, ResetRegion(g))
  {
    var h := ResetRegion(g);
    if Quiet(g) {
      OffKeepsCounts(g, h);
      OffKeepsSane(g, h);
      forall b | 0 <= b < |h.budgetObjs|
        ensures Retirable(h.budgetObjs[b])
      {
        NoneOpen(g, b);
        if Mapped(g, b) {
          assert g.budgetObjs[g.budgets[g.budgetObjs[b].id]].reserved == 0;
        }
      }
    }
  }

  lemma {:induction false} NoneOpen(g: Gate, b: nat)
    requires Refs(g) && Counted(g) && g.connections == 0 && b < |g.budgetObjs|
    ensures g.budgetObjs[b].connections == 0
  {
    assert Open(g.connObjs) == {};
    assert OpenOn(g.connObjs, g.deviceObjs, b) <= Open(g.connObjs);
  }

  lemma {:induction false} AcknowledgeShrinks(g: Gate, reports: seq<Report>)
    requires Refs(g)
    ensures var h := AcknowledgeRegion(g, reports);
            && Refs(h) && OnlyOff(g, h) && |h.budgets| <= |g.budgets|
            && (forall k :: k in h.budgets ==> k in g.budgets && h.budgets[k] == g.budgets[k])
            && (forall b :: 0 <= b < |g.budgetObjs| && Mapped(g, b) && !Mapped(h, b) ==> Retirable(g.budgetObjs[b]))
  {
    var h := AcknowledgeRegion(g, reports);
    SubmapSize(h.budgets, g.budgets);
    forall b | 0 <= b < |g.budgetObjs| && Mapped(g, b) && !Mapped(h, b)
      ensures Retirable(g.budgetObjs[b])
    {
      assert g.budgetObjs[b].id !in h.budgets;
    }
  }

  lemma {:induction false} AcknowledgeKeeps(g: Gate, reports: seq<Report>)
    requires GateInv(g)
    ensures GateInv(AcknowledgeRegion(g, reports)) && OnlyOff(g, AcknowledgeRegion(g, reports))
  {
    var h := AcknowledgeRegion(g, reports);
    AcknowledgeShrinks(g, reports);
    OffKeepsCounts(g, h);
    OffKeepsNames(g, h);
    OffKeepsActive(g, h);
    OffKeepsMapped(g, h);
    OffKeepsDead(g, h);
  }

  lemma {:induction false} SubmapSize<K, V>(a: map<K, V>, b: map<K, V>)
    requires a.Keys <= b.Keys
    ensures |a| <= |b|
  {
    SubsetSize(a.Keys, b.Keys);
  }
}
