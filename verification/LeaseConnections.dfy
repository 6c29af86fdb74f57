// The gate's regions that serve connections keep its invariant.
module LeaseConnections {
  import opened Common
  import opened LeaseGate
  import opened LeaseInvariant

  lemma {:induction false} SumCountsUpdate(bs: seq<Budget>, i: nat, b: Budget)
    requires i < |bs|
    ensures SumCounts(bs[i := b]) == SumCounts(bs) - bs[i].connections + b.connections
  {
    var n := |bs| - 1;
    if i < n {
      assert bs[i := b][..n] == bs[..n][i := b];
      SumCountsUpdate(bs[..n], i, b);
    } else {
      assert bs[i := b][..n] == bs[..n];
    }
  }

  // ---- a single budget's byte counters ----

  function Recount(g: Gate, b: nat, used: int, reserved: int): Gate
    requires b < |g.budgetObjs|
  {
    g.(budgetObjs := g.budgetObjs[b := g.budgetObjs[b].(used := used, reserved := reserved)])
  }

  lemma {:induction false} RecountCounts(g: Gate, b: nat, used: int, reserved: int)
    requires Refs(g) && b < |g.budgetObjs| && Counted(g)
    ensures Refs(Recount(g, b, used, reserved)) && Counted(Recount(g, b, used, reserved))
  {
    var h := Recount(g, b, used, reserved);
    SumCountsUpdate(g.budgetObjs, b, h.budgetObjs[b]);
  }

  lemma {:induction false} RecountNames(g: Gate, b: nat, used: int, reserved: int)
    requires Refs(g) && b < |g.budgetObjs| && Names(g) && MappedOk(g)
    ensures Refs(Recount(g, b, used, reserved))
    ensures Names(Recount(g, b, used, reserved)) && MappedOk(Recount(g, b, used, reserved))
  {
    var h := Recount(g, b, used, reserved);
    forall t | t in h.devices
      ensures Mapped(h, h.deviceObjs[h.devices[t]].budget) && h.budgetObjs[h.deviceObjs[h.devices[t]].budget].active
    {
      assert Mapped(g, g.deviceObjs[g.devices[t]].budget);
    }
  }

  lemma {:induction false} RecountDead(g: Gate, b: nat, used: int, reserved: int)
    requires b < |g.budgetObjs| && DeadOk(g) && Mapped(g, b)
    ensures DeadOk(Recount(g, b, used, reserved))
  {
    var h := Recount(g, b, used, reserved);
    forall x | 0 <= x < |h.budgetObjs| && !Mapped(h, x)
      ensures Retirable(h.budgetObjs[x])
    {
      assert !Mapped(g, x);
    }
  }

  /** All but the activity invariant, for any lawful new counters of a mapped budget. */
  lemma {:induction false} RecountKeeps(g: Gate, b: nat, used: int, reserved: int)
    requires GateInv(g) && b < |g.budgetObjs| && Mapped(g, b)
    requires 0 <= used && 0 <= reserved && used + reserved <= g.budgetObjs[b].grant
    ensures var h := Recount(g, b, used, reserved);
            && Refs(h) && Names(h) && AllSane(h) && MappedOk(h) && DeadOk(h) && Counted(h)
            && |h.budgets| <= MAX_BUDGETS
  {
    RecountCounts(g, b, used, reserved);
    RecountNames(g, b, used, reserved);
    RecountDead(g, b, used, reserved);
  }

  /** A budget with bytes reserved is in the map. */
  lemma {:induction false} ReservedIsMapped(g: Gate, b: nat)
    requires DeadOk(g) && b < |g.budgetObjs|
    requires g.budgetObjs[b].reserved != 0 || g.budgetObjs[b].active
    ensures Mapped(g, b)
  {
  }

  lemma {:induction false} ReserveKeeps(g: Gate, c: nat, want: nat, whole: bool, now: int)
    requires GateInv(g) && c < |g.connObjs|
    ensures GateInv(ReserveRegion(g, c, want, whole, now))
  {
    hide Names, ActiveOk, MappedOk, DeadOk, DeviceCounts, BudgetCounts, TotalCounts;
    var b := BudgetOf(g, c);
    var n := Allowance(g, c, want, whole, now);
    var h := ReserveRegion(g, c, want, whole, now);
    if n == 0 {
      assert h.budgetObjs == g.budgetObjs;
      assert h == g;
    } else {
      ReservedIsMapped(g, b);
      var budget := g.budgetObjs[b];
      assert Sane(budget);
      RecountKeeps(g, b, budget.used, budget.reserved + n);
      assert h == Recount(g, b, budget.used, budget.reserved + n);
      SpendKeepsActive(g, b, budget.used, budget.reserved + n);
    }
  }

  lemma {:induction false} SpendKeepsActive(g: Gate, b: nat, used: int, reserved: int)
    requires Refs(g) && b < |g.budgetObjs| && ActiveOk(g) && Refs(Recount(g, b, used, reserved))
    requires used == g.budgetObjs[b].used || used < g.budgetObjs[b].grant
    ensures ActiveOk(Recount(g, b, used, reserved))
  {
    var h := Recount(g, b, used, reserved);
    forall d | 0 <= d < |h.deviceObjs| && h.deviceObjs[d].active
      ensures Live(h, d) && h.budgetObjs[h.deviceObjs[d].budget].used < h.budgetObjs[h.deviceObjs[d].budget].grant
    {
      assert Live(g, d);
    }
  }

  lemma {:induction false} SaneAt(g: Gate, b: nat)
    requires AllSane(g) && b < |g.budgetObjs|
    ensures Sane(g.budgetObjs[b])
  {
  }

  /** Settling part of an outstanding reservation keeps everything. */
  lemma {:induction false} FinishKeeps(g: Gate, c: nat, reserved: nat, used: nat)
    requires GateInv(g) && c < |g.connObjs|
    requires 1 <= reserved <= g.budgetObjs[BudgetOf(g, c)].reserved && used <= reserved
    ensures GateInv(FinishRegion(g, c, reserved, used))
  {
    hide Names, AllSane, ActiveOk, MappedOk, DeadOk, DeviceCounts, BudgetCounts, TotalCounts, Sharing, Deactivate;
    var b := BudgetOf(g, c);
    var budget := g.budgetObjs[b];
    assert Sane(budget) by { SaneAt(g, b); }
    ReservedIsMapped(g, b);
    SettleKeeps(g, b, budget.used + used, budget.reserved - reserved);
  }

  lemma {:induction false} SettleKeeps(g: Gate, b: nat, used: int, reserved: int)
    requires GateInv(g) && b < |g.budgetObjs| && Mapped(g, b)
    requires 0 <= used && 0 <= reserved && used + reserved <= g.budgetObjs[b].grant
    ensures var h := Recount(g, b, used, reserved);
            GateInv(if used < g.budgetObjs[b].grant then h
                    else h.(deviceObjs := Deactivate(h.deviceObjs, Sharing(g, b))))
  {
    hide Names, AllSane, ActiveOk, MappedOk, DeadOk, DeviceCounts, BudgetCounts, TotalCounts;
    RecountKeeps(g, b, used, reserved);
    if used < g.budgetObjs[b].grant {
      SpendKeepsActive(g, b, used, reserved);
    } else {
      ExhaustedKeeps(g, b, used, reserved);
    }
  }

  /** A used-up budget: its devices, all of them mapped, are switched off. */
  lemma {:induction false} ExhaustedKeeps(g: Gate, b: nat, used: int, reserved: int)
    requires Refs(g) && ActiveOk(g) && b < |g.budgetObjs|
    requires var h := Recount(g, b, used, reserved);
             && Refs(h) && Names(h) && AllSane(h) && MappedOk(h) && DeadOk(h) && Counted(h)
             && |h.budgets| <= MAX_BUDGETS
    ensures var h := Recount(g, b, used, reserved);
            GateInv(h.(deviceObjs := Deactivate(h.deviceObjs, Sharing(g, b))))
  {
    hide Names, ActiveOk, MappedOk, DeviceCounts, BudgetCounts, TotalCounts;
    var h := Recount(g, b, used, reserved);
    var k := h.(deviceObjs := Deactivate(h.deviceObjs, Sharing(g, b)));
    assert OnlyOff(h, k);
    OffKeepsCounts(h, k);
    OffKeepsNames(h, k);
    OffKeepsMapped(h, k);
    OffKeepsDead(h, k);
    SharingSwitchedOff(g, b, used, reserved);
  }

  lemma {:induction false} SharingSwitchedOff(g: Gate, b: nat, used: int, reserved: int)
    requires Refs(g) && ActiveOk(g) && b < |g.budgetObjs|
    ensures var h := Recount(g, b, used, reserved);
            var k := h.(deviceObjs := Deactivate(h.deviceObjs, Sharing(g, b)));
            Refs(k) && ActiveOk(k)
  {
    var h := Recount(g, b, used, reserved);
    var k := h.(deviceObjs := Deactivate(h.deviceObjs, Sharing(g, b)));
    forall d | 0 <= d < |k.deviceObjs| && k.deviceObjs[d].active
      ensures Live(k, d) && k.budgetObjs[k.deviceObjs[d].budget].used < k.budgetObjs[k.deviceObjs[d].budget].grant
    {
      assert g.deviceObjs[d].active && Live(g, d);
      assert d !in Sharing(g, b);
      assert g.deviceObjs[d].budget != b;
    }
  }

  // ---- opening and closing ----

  lemma {:induction false} OpenOfSnoc(cs: seq<Conn>, d: nat, x: nat)
    ensures OpenOf(cs + [Conn(d, false)], x) == OpenOf(cs, x) + if x == d then {|cs|} else {}
  {
  }

  lemma {:induction false} AttachDeviceCounts(g: Gate, token: string, from: Option<nat>, now: int)
    requires Refs(g) && DeviceCounts(g) && Admits(g, token, from, now)
    ensures DeviceCounts(AttachRegion(g, token, from, now))
  {
    hide OpenOf;
    var h := AttachRegion(g, token, from, now);
    forall x | 0 <= x < |h.deviceObjs|
      ensures h.deviceObjs[x].connections == OpenOf(h.connObjs, x) && |h.deviceObjs[x].connections| <= MAX_PER_DEVICE
    {
      OpenOfSnoc(g.connObjs, g.devices[token], x);
    }
  }

  lemma {:induction false} OpenOnSnoc(cs: seq<Conn>, ds: seq<Device>, es: seq<Device>, d: nat, x: nat)
    requires |ds| == |es| && d < |ds|
    requires forall c :: 0 <= c < |cs| ==> cs[c].device < |ds|
    requires forall i :: 0 <= i < |ds| ==> es[i].budget == ds[i].budget
    ensures |OpenOn(cs + [Conn(d, false)], es, x)| == |OpenOn(cs, ds, x)| + if ds[d].budget == x then 1 else 0
  {
    assert OpenOn(cs + [Conn(d, false)], es, x) == OpenOn(cs, ds, x) + if ds[d].budget == x then {|cs|} else {};
  }

  lemma {:induction false} AttachBudgetCounts(g: Gate, token: string, from: Option<nat>, now: int)
    requires Refs(g) && BudgetCounts(g) && Admits(g, token, from, now)
    ensures Refs(AttachRegion(g, token, from, now)) && BudgetCounts(AttachRegion(g, token, from, now))
  {
    hide OpenOn;
    var h := AttachRegion(g, token, from, now);
    forall x | 0 <= x < |h.budgetObjs|
      ensures h.budgetObjs[x].connections == |OpenOn(h.connObjs, h.deviceObjs, x)|
    {
      OpenOnSnoc(g.connObjs, g.deviceObjs, h.deviceObjs, g.devices[token], x);
    }
  }

  lemma {:induction false} AttachTotalCounts(g: Gate, token: string, from: Option<nat>, now: int)
    requires Refs(g) && TotalCounts(g) && Admits(g, token, from, now)
    ensures TotalCounts(AttachRegion(g, token, from, now))
  {
    var h := AttachRegion(g, token, from, now);
    var b := g.deviceObjs[g.devices[token]].budget;
    assert Open(h.connObjs) == Open(g.connObjs) + {|g.connObjs|};
    SumCountsUpdate(g.budgetObjs, b, h.budgetObjs[b]);
  }

  lemma {:induction false} OpenOfClose(cs: seq<Conn>, c: nat, x: nat)
    requires c < |cs|
    ensures OpenOf(cs[c := Conn(cs[c].device, true)], x) == OpenOf(cs, x) - {c}
    ensures x != cs[c].device ==> OpenOf(cs[c := Conn(cs[c].device, true)], x) == OpenOf(cs, x)
  {
  }

  lemma {:induction false} CloseDeviceCounts(g: Gate, c: nat)
    requires Refs(g) && DeviceCounts(g) && c < |g.connObjs| && !g.connObjs[c].closed
    ensures DeviceCounts(CloseRegion(g, c))
  {
    hide OpenOf;
    var h := CloseRegion(g, c);
    forall x | 0 <= x < |h.deviceObjs|
      ensures h.deviceObjs[x].connections == OpenOf(h.connObjs, x) && |h.deviceObjs[x].connections| <= MAX_PER_DEVICE
    {
      OpenOfClose(g.connObjs, c, x);
      SubsetSize(OpenOf(h.connObjs, x), OpenOf(g.connObjs, x));
    }
  }

  lemma {:induction false} OpenOnClose(cs: seq<Conn>, ds: seq<Device>, es: seq<Device>, c: nat, x: nat)
    requires c < |cs| && !cs[c].closed && |ds| == |es|
    requires forall i :: 0 <= i < |cs| ==> cs[i].device < |ds|
    requires forall i :: 0 <= i < |ds| ==> es[i].budget == ds[i].budget
    ensures |OpenOn(cs[c := Conn(cs[c].device, true)], es, x)| ==
            |OpenOn(cs, ds, x)| - if ds[cs[c].device].budget == x then 1 else 0
  {
    var b := ds[cs[c].device].budget;
    assert OpenOn(cs[c := Conn(cs[c].device, true)], es, x) == OpenOn(cs, ds, x) - if b == x then {c} else {};
    assert b == x ==> c in OpenOn(cs, ds, x);
  }

  lemma {:induction false} CloseBudgetCounts(g: Gate, c: nat)
    requires Refs(g) && BudgetCounts(g) && c < |g.connObjs| && !g.connObjs[c].closed
    ensures Refs(CloseRegion(g, c)) && BudgetCounts(CloseRegion(g, c))
  {
    hide OpenOn;
    var h := CloseRegion(g, c);
    forall x | 0 <= x < |h.budgetObjs|
      ensures h.budgetObjs[x].connections == |OpenOn(h.connObjs, h.deviceObjs, x)|
    {
      OpenOnClose(g.connObjs, g.deviceObjs, h.deviceObjs, c, x);
    }
  }

  lemma {:induction false} CloseTotalCounts(g: Gate, c: nat)
    requires Refs(g) && TotalCounts(g) && c < |g.connObjs| && !g.connObjs[c].closed
    ensures TotalCounts(CloseRegion(g, c))
  {
    var h := CloseRegion(g, c);
    assert Open(h.connObjs) == Open(g.connObjs) - {c};
    SumCountsUpdate(g.budgetObjs, BudgetOf(g, c), h.budgetObjs[BudgetOf(g, c)]);
  }

  /** Only connection counts differ. */
  predicate SameButCounts(g: Gate, h: Gate) {
    && h.budgets == g.budgets && h.devices == g.devices
    && |h.budgetObjs| == |g.budgetObjs| && |h.deviceObjs| == |g.deviceObjs|
    && (forall b :: 0 <= b < |g.budgetObjs| ==>
          h.budgetObjs[b].(connections := 0) == g.budgetObjs[b].(connections := 0))
    && (forall d :: 0 <= d < |g.deviceObjs| ==>
          h.deviceObjs[d].(connections := {}) == g.deviceObjs[d].(connections := {}))
  }

  lemma {:induction false} RecountsKeepAuthority(g: Gate, h: Gate)
    requires Refs(g) && Refs(h) && SameButCounts(g, h)
    requires Names(g) && AllSane(g) && ActiveOk(g) && MappedOk(g)
    ensures Names(h) && AllSane(h) && ActiveOk(h) && MappedOk(h)
  {
    assert forall b :: 0 <= b < |g.budgetObjs| ==> (Mapped(h, b) <==> Mapped(g, b)) by {
      forall b | 0 <= b < |g.budgetObjs|
        ensures Mapped(h, b) <==> Mapped(g, b)
      {
        assert h.budgetObjs[b].(connections := 0) == g.budgetObjs[b].(connections := 0);
      }
    }
    forall d | 0 <= d < |h.deviceObjs| && h.deviceObjs[d].active
      ensures Live(h, d) && h.budgetObjs[h.deviceObjs[d].budget].used < h.budgetObjs[h.deviceObjs[d].budget].grant
    {
      assert h.deviceObjs[d].(connections := {}) == g.deviceObjs[d].(connections := {});
      assert Live(g, d);
      assert h.budgetObjs[h.deviceObjs[d].budget].(connections := 0) ==
             g.budgetObjs[g.deviceObjs[d].budget].(connections := 0);
    }
    forall t | t in h.devices
      ensures Mapped(h, h.deviceObjs[h.devices[t]].budget) && h.budgetObjs[h.deviceObjs[h.devices[t]].budget].active
    {
      assert h.deviceObjs[h.devices[t]].(connections := {}) == g.deviceObjs[g.devices[t]].(connections := {});
      assert h.budgetObjs[h.deviceObjs[h.devices[t]].budget].(connections := 0) ==
             g.budgetObjs[g.deviceObjs[g.devices[t]].budget].(connections := 0);
    }
    forall b | 0 <= b < |h.budgetObjs|
      ensures Sane(h.budgetObjs[b])
    {
      assert h.budgetObjs[b].(connections := 0) == g.budgetObjs[b].(connections := 0);
    }
  }

  /** The one budget whose count moved is in the map. */
  lemma {:induction false} RecountsKeepDead(g: Gate, h: Gate, b: nat)
    requires SameButCounts(g, h) && DeadOk(g) && b < |g.budgetObjs| && Mapped(g, b)
    requires forall x :: 0 <= x < |g.budgetObjs| && x != b ==> h.budgetObjs[x] == g.budgetObjs[x]
    ensures DeadOk(h)
  {
    forall x | 0 <= x < |h.budgetObjs| && !Mapped(h, x)
      ensures Retirable(h.budgetObjs[x])
    {
      assert h.budgetObjs[x].(connections := 0) == g.budgetObjs[x].(connections := 0);
      assert !Mapped(g, x);
    }
  }

  lemma {:induction false} AttachMovesCounts(g: Gate, token: string, from: Option<nat>, now: int)
    requires Refs(g) && Admits(g, token, from, now)
    ensures SameButCounts(g, AttachRegion(g, token, from, now))
  {
  }

  lemma {:induction false} AttachKeeps(g: Gate, token: string, from: Option<nat>, now: int)
    requires GateInv(g)
    ensures GateInv(AttachRegion(g, token, from, now))
  {
    hide Names, AllSane, ActiveOk, MappedOk, DeadOk, DeviceCounts, BudgetCounts, TotalCounts, SameButCounts;
    if Admits(g, token, from, now) {
      var h := AttachRegion(g, token, from, now);
      AttachDeviceCounts(g, token, from, now);
      AttachBudgetCounts(g, token, from, now);
      AttachTotalCounts(g, token, from, now);
      AttachMovesCounts(g, token, from, now);
      RecountsKeepAuthority(g, h);
      ReservedIsMapped(g, g.deviceObjs[g.devices[token]].budget);
      RecountsKeepDead(g, h, g.deviceObjs[g.devices[token]].budget);
    }
  }

  lemma {:induction false} CloseKeeps(g: Gate, c: nat)
    requires GateInv(g) && c < |g.connObjs|
    ensures GateInv(CloseRegion(g, c))
  {
    hide Names, AllSane, ActiveOk, MappedOk, DeadOk, DeviceCounts, BudgetCounts, TotalCounts;
    if !g.connObjs[c].closed {
      var h := CloseRegion(g, c);
      CloseDeviceCounts(g, c);
      CloseBudgetCounts(g, c);
      CloseTotalCounts(g, c);
      RecountsKeepAuthority(g, h);
      OpenIsMapped(g, c);
      RecountsKeepDead(g, h, BudgetOf(g, c));
    }
  }

  /** An open connection's budget is still in the map. */
  lemma {:induction false} OpenIsMapped(g: Gate, c: nat)
    requires Refs(g) && BudgetCounts(g) && DeadOk(g) && c < |g.connObjs| && !g.connObjs[c].closed
    ensures Mapped(g, BudgetOf(g, c)) && g.budgetObjs[BudgetOf(g, c)].connections > 0
  {
    assert c in OpenOn(g.connObjs, g.deviceObjs, BudgetOf(g, c));
  }
}
