// An accepted snapshot takes effect in full: every device it lists is mapped,
// and is active exactly when its time and its lease allow.
module LeaseInstall {
  import opened LeasePolicy
  import opened LeaseGate
  import opened LeaseInvariant
  import opened LeaseApply
  import LeaseRuns
  import LeaseTheorems

  predicate NextRefs(s: Install) {
    && (forall t :: t in s.next ==> s.next[t] < |s.deviceObjs|)
    && (forall d :: 0 <= d < |s.deviceObjs| ==> s.deviceObjs[d].budget < |s.budgetObjs|)
  }

  /** A placed device is active exactly when it has time and bytes left. */
  predicate Exact(s: Install, now: int)
    requires NextRefs(s)
  {
    forall t :: t in s.next ==>
      var d := s.deviceObjs[s.next[t]];
      d.active <==> now < d.deadline && s.budgetObjs[d.budget].used < s.budgetObjs[d.budget].grant
  }

  ghost predicate AllPlaced(p: Policy, s: Install, n: nat, m: nat) {
    forall i, j :: Before(p, i, j, n, m) ==> Token(DeviceAt(p, i, j)) in s.next
  }

  lemma {:induction false} RefsOfNext(p: Policy, start: int, s: Install, n: nat, m: nat)
    requires forall d :: 0 <= d < |s.deviceObjs| ==> s.deviceObjs[d].budget < |s.budgetObjs|
    requires NextOk(p, start, s, n, m)
    ensures NextRefs(s)
  {
    hide Placed;
  }

  lemma {:induction false} ExactBudget(p: Policy, start: int, s: Install, n: nat, now: int)
    requires n < |p.users| && UsersOk(p, |p.users|)
    requires forall k :: k in s.budgets ==> s.budgets[k] < |s.budgetObjs| && s.budgetObjs[s.budgets[k]].id == k
    requires NextRefs(s) && NextOk(p, start, s, n, 0) && Exact(s, now) && NextRefs(WithBudget(s, p.users[n]))
    ensures Exact(WithBudget(s, p.users[n]), now)
  {
    hide UserOk, ListedAt;
    var u := p.users[n];
    var s' := WithBudget(s, u);
    forall t | t in s'.next
      ensures s'.budgetObjs[s.deviceObjs[s.next[t]].budget] == s.budgetObjs[s.deviceObjs[s.next[t]].budget]
    {
      var d := s.deviceObjs[s.next[t]];
      var i, j :| Before(p, i, j, n, 0) && ListedAt(p, start, i, j, d, s.budgetObjs[d.budget]);
      ListedLease(p, start, i, j, d, s.budgetObjs[d.budget]);
      assert p.users[i].lease.id != u.lease.id;
    }
  }

  lemma {:induction false} ExactDevice(g: Gate, s: Install, start: int, p: Policy, n: nat, m: nat, now: int)
    requires Refs(g) && Names(g) && DevicesGrow(g, s) && InPolicy(p, n, m)
    requires InstallRefs(s, g.devices) && p.users[n].lease.id in s.budgets
    requires NextRefs(s) && NextOk(p, start, s, n, m) && Exact(s, now) && Token(DeviceAt(p, n, m)) !in s.next
    requires NextRefs(WithDevice(s, g.devices, start, p, p.users[n], DeviceAt(p, n, m), now))
    ensures Exact(WithDevice(s, g.devices, start, p, p.users[n], DeviceAt(p, n, m), now), now)
  {
    hide Token, DeviceDeadline, Placed, ListedAt, Before, DevicesGrow;
    var u, d := p.users[n], DeviceAt(p, n, m);
    var s' := WithDevice(s, g.devices, start, p, u, d, now);
    ReusedToken(g, s, Token(d));
    forall t | t in s.next
      ensures s'.next[t] == s.next[t] && s'.deviceObjs[s.next[t]] == s.deviceObjs[s.next[t]]
    {
    }
  }

  lemma {:induction false} ExactStart(g: Gate, now: int)
    requires Refs(g)
    ensures NextRefs(Begun(g)) && Exact(Begun(g), now)
  {
  }

  lemma {:induction false} InstallToExact(g: Gate, p: Policy, n: nat, m: nat, now: int)
    requires GateInv(g) && PolicyValid(p) && p.node.Some? && BudgetsAgree(g, p.users)
    requires n < |p.users| && m <= |p.users[n].devices| && InstallRefs(Begun(g), g.devices)
    ensures var s := InstallTo(Begun(g), g.devices, g.pendingStart, p, n, m, now); NextRefs(s) && Exact(s, now)
    decreases n, m + 1
  {
    hide AllSane, ActiveOk, MappedOk, DeadOk, DeviceCounts, BudgetCounts, TotalCounts;
    hide NextOk, BudgetsSane, RestOk, BudgetsGrow, DevicesOk, Begun, HeaderOk, NodeOk, UsersOk, NextRefs, Exact;
    hide DeviceDeadline, Token, BudgetsAgree, WithBudget, WithDevice, LeasesDone, InstallRefs, DevicesGrow;
    hide Refs, Names, Counted;
    InstallToOk(g, p, n, m, now);
    var s' := InstallTo(Begun(g), g.devices, g.pendingStart, p, n, m, now);
    GrownRefs(g, s');
    RefsOfNext(p, g.pendingStart, s', n, m);
    if m > 0 {
      InstallToOk(g, p, n, m - 1, now);
      InstallToExact(g, p, n, m - 1, now);
      var s := InstallTo(Begun(g), g.devices, g.pendingStart, p, n, m - 1, now);
      GrownRefs(g, s);
      TokenIsNew(p, g.pendingStart, s, n, m - 1);
      ExactDevice(g, s, g.pendingStart, p, n, m - 1, now);
    } else {
      InstallUsersOk(g, p, n, now);
      InstallUsersExact(g, p, n, now);
      ExactBudget(p, g.pendingStart, InstallUsers(Begun(g), g.devices, g.pendingStart, p, n, now), n, now);
    }
  }

  lemma {:induction false} InstallUsersExact(g: Gate, p: Policy, n: nat, now: int)
    requires GateInv(g) && PolicyValid(p) && p.node.Some? && BudgetsAgree(g, p.users)
    requires n <= |p.users| && InstallRefs(Begun(g), g.devices)
    ensures var s := InstallUsers(Begun(g), g.devices, g.pendingStart, p, n, now); NextRefs(s) && Exact(s, now)
    decreases n, 0
  {
    hide AllSane, ActiveOk, MappedOk, DeadOk, DeviceCounts, BudgetCounts, TotalCounts, Names;
    hide PolicyValid, BudgetsAgree, InstallTo, InstallRefs, NextRefs, Exact, Begun, Refs;
    if n == 0 {
      ExactStart(g, now);
    } else {
      InstallToExact(g, p, n - 1, |p.users[n - 1].devices|, now);
    }
  }

  lemma {:induction false} InstallToPlaced(s: Install, prev: map<string, nat>, start: int, p: Policy, n: nat,
                                           m: nat, now: int)
    requires InstallRefs(s, prev) && n < |p.users| && m <= |p.users[n].devices|
    ensures AllPlaced(p, InstallTo(s, prev, start, p, n, m, now), n, m)
    decreases n, m + 1
  {
    hide Token, DeviceDeadline, InstallRefs, Reusable;
    if m > 0 {
      InstallToPlaced(s, prev, start, p, n, m - 1, now);
    } else {
      InstallUsersPlaced(s, prev, start, p, n, now);
    }
  }

  lemma {:induction false} InstallUsersPlaced(s: Install, prev: map<string, nat>, start: int, p: Policy, n: nat,
                                              now: int)
    requires InstallRefs(s, prev) && n <= |p.users|
    ensures AllPlaced(p, InstallUsers(s, prev, start, p, n, now), n, 0)
    decreases n, 0
  {
    hide Token, InstallTo, InstallRefs;
    if n > 0 {
      InstallToPlaced(s, prev, start, p, n - 1, |p.users[n - 1].devices|, now);
    }
  }

  /** The listed device of a token is the one it was listed for. */
  lemma {:induction false} SamePlace(p: Policy, i: int, j: int, x: int, y: int)
    requires PolicyValid(p) && p.node.Some? && InPolicy(p, i, j) && InPolicy(p, x, y)
    requires Token(DeviceAt(p, i, j)) == Token(DeviceAt(p, x, y))
    ensures i == x && j == y
  {
    hide PolicyValid, Token;
    if Before(p, i, j, x, y) {
      DifferentTokens(p, i, j, x, y);
    } else if Before(p, x, y, i, j) {
      DifferentTokens(p, x, y, i, j);
    }
  }

  /** No placed device is among the dropped ones. */
  lemma {:induction false} PlacedStays(g: Gate, s: Install, t: string)
    requires Refs(g) && Names(g) && DevicesGrow(g, s) && NextRefs(s) && t in s.next
             && s.deviceObjs[s.next[t]].token == t
    ensures s.next[t] !in Dropped(g.devices, s.next)
  {
    forall k | k in g.devices && g.devices[k] == s.next[t]
      ensures k == t
    {
      ReusedToken(g, s, k);
    }
  }

  /** What an accepted snapshot that enables service does for each device it lists. */
  ghost predicate TakesEffect(g: Gate, h: Gate, p: Policy, i: int, j: int, now: int)
    requires InPolicy(p, i, j)
  {
    var u, t := p.users[i], Token(DeviceAt(p, i, j));
    && t in h.devices && h.devices[t] < |h.deviceObjs|
    && var d := h.deviceObjs[h.devices[t]];
       && d.token == t && d.deadline == DeviceDeadline(g.pendingStart, p, u, DeviceAt(p, i, j))
       && d.budget < |h.budgetObjs|
       && var b := h.budgetObjs[d.budget];
          && b.id == u.lease.id && b.user == u.id && b.epoch == u.epoch && b.grant == u.lease.grant && b.active
          && (d.active <==> now < d.deadline && b.used < b.grant)
  }

  /** The same of what the install loops built. */
  ghost predicate BuiltFor(s: Install, p: Policy, start: int, i: int, j: int, now: int)
    requires InPolicy(p, i, j)
  {
    var t := Token(DeviceAt(p, i, j));
    && NextRefs(s) && t in s.next
    && var d := s.deviceObjs[s.next[t]];
       var b := s.budgetObjs[d.budget];
       ListedAt(p, start, i, j, d, b) && b.active && (d.active <==> now < d.deadline && b.used < b.grant)
  }

  lemma {:induction false} PlacedFor(p: Policy, start: int, s: Install, i: int, j: int, now: int)
    requires PolicyValid(p) && p.node.Some? && InPolicy(p, i, j)
    requires NextRefs(s) && Exact(s, now) && AllPlaced(p, s, |p.users|, 0) && NextOk(p, start, s, |p.users|, 0)
    ensures BuiltFor(s, p, start, i, j, now)
  {
    hide PolicyValid, DeviceDeadline, Token, ListedAt, NextOk, Exact, AllPlaced;
    var t := Token(DeviceAt(p, i, j));
    var x, y := PlaceOf(p, start, s, i, j);
    ListedLease(p, start, x, y, s.deviceObjs[s.next[t]], s.budgetObjs[s.deviceObjs[s.next[t]].budget]);
    SamePlace(p, i, j, x, y);
    ExactAt(s, now, t);
  }

  lemma {:induction false} ExactAt(s: Install, now: int, t: string)
    requires NextRefs(s) && Exact(s, now) && t in s.next
    ensures var d := s.deviceObjs[s.next[t]];
            d.active <==> now < d.deadline && s.budgetObjs[d.budget].used < s.budgetObjs[d.budget].grant
  {
  }

  lemma {:induction false} PlaceOf(p: Policy, start: int, s: Install, i: int, j: int) returns (x: int, y: int)
    requires InPolicy(p, i, j) && NextRefs(s) && AllPlaced(p, s, |p.users|, 0) && NextOk(p, start, s, |p.users|, 0)
    ensures var t := Token(DeviceAt(p, i, j));
            && t in s.next && InPolicy(p, x, y) && s.deviceObjs[s.next[t]].token == t
            && ListedAt(p, start, x, y, s.deviceObjs[s.next[t]], s.budgetObjs[s.deviceObjs[s.next[t]].budget])
            && s.budgetObjs[s.deviceObjs[s.next[t]].budget].active
  {
    hide Token, ListedAt;
    assert Before(p, i, j, |p.users|, 0);
    var d := s.deviceObjs[s.next[Token(DeviceAt(p, i, j))]];
    assert Placed(p, start, s, |p.users|, 0, d);
    x, y :| Before(p, x, y, |p.users|, 0) && ListedAt(p, start, x, y, d, s.budgetObjs[d.budget]);
  }

  lemma {:induction false} InstalledBuilds(g: Gate, p: Policy, now: int, i: int, j: int)
    requires GateInv(g) && PolicyValid(p) && BudgetsAgree(g, p.users) && RoomFor(g, p) && Enables(g, p, now)
             && InPolicy(p, i, j)
    ensures BuiltFor(Installed(g, p, now), p, g.pendingStart, i, j, now) && DevicesGrow(g, Installed(g, p, now))
  {
    hide Names, AllSane, ActiveOk, MappedOk, DeadOk, DeviceCounts, BudgetCounts, TotalCounts, BudgetsSane, RestOk;
    hide BudgetsGrow;
    hide BudgetsAgree, PolicyValid, InstallUsers, NextRefs, DevicesGrow, BudgetKeys, Expired, NextOk, Exact;
    hide AllPlaced, BuiltFor;
    InstalledOk(g, p, now);
    assert InstallRefs(Begun(g), g.devices);
    InstallUsersExact(g, p, |p.users|, now);
    InstallUsersPlaced(Begun(g), g.devices, g.pendingStart, p, |p.users|, now);
    GrownRefs(g, Installed(g, p, now));
    PlacedFor(p, g.pendingStart, Installed(g, p, now), i, j, now);
  }

  lemma {:induction false} SwitchTakesEffect(g: Gate, p: Policy, now: int, i: int, j: int)
    requires GateInv(g) && PolicyValid(p) && BudgetsAgree(g, p.users) && RoomFor(g, p) && Enables(g, p, now)
             && InPolicy(p, i, j)
    ensures TakesEffect(g, Switch(g, p, now), p, i, j, now)
  {
    hide Names, AllSane, ActiveOk, MappedOk, DeadOk, DeviceCounts, BudgetCounts, TotalCounts;
    hide BudgetsAgree, PolicyValid, Installed, DeviceDeadline, Token, DevicesGrow, Dropped, Enables, RoomFor;
    InstalledBuilds(g, p, now, i, j);
    PlacedStays(g, Installed(g, p, now), Token(DeviceAt(p, i, j)));
  }

  /** In every run, an accepted snapshot that enables service takes effect for all its devices. */
  lemma {:induction false} AcceptedTakesEffect(ws: seq<LeaseRuns.World>, steps: seq<LeaseRuns.Step>, k: nat,
                                               p: Policy, start: int, i: int, j: int)
    requires LeaseTheorems.IsRun(ws, steps) && LeaseTheorems.Accepts(ws, steps, k, p, start) && InPolicy(p, i, j)
    ensures TakesEffect(ws[k].gate, ws[k + 1].gate, p, i, j, steps[k].now)
  {
    hide Names, AllSane, ActiveOk, MappedOk, DeadOk, DeviceCounts, BudgetCounts, TotalCounts, BudgetsAgree, PolicyValid;
    hide Switch, Enables, RoomFor;
    LeaseTheorems.RunInv(ws, steps, k);
    LeaseTheorems.StepOf(ws, steps, k);
    var g := ws[k].gate;
    var g1 := Consume(g, p, steps[k].hash);
    SameGateInv(g, g1);
    SameAgreement(g, g1, p);
    SwitchTakesEffect(g1, p, steps[k].now, i, j);
  }
}
