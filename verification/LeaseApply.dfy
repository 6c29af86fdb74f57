// Installing a snapshot keeps the gate's invariant, and afterwards every mapped
// device is one the snapshot lists, with the lease and the deadline it gives.
module LeaseApply {
  import opened LeasePolicy
  import opened LeaseGate
  import opened LeaseInvariant

  /** Device d with budget b is what position (i, j) of the snapshot grants. */
  predicate ListedAt(p: Policy, start: int, i: int, j: int, d: Device, b: Budget) {
    && InPolicy(p, i, j)
    && d.token == Token(DeviceAt(p, i, j))
    && d.deadline == DeviceDeadline(start, p, p.users[i], DeviceAt(p, i, j))
    && b.id == p.users[i].lease.id && b.user == p.users[i].id && b.epoch == p.users[i].epoch
    && b.grant == p.users[i].lease.grant
  }

  lemma {:induction false} SameAgreement(g: Gate, h: Gate, p: Policy)
    requires Refs(g) && h == g.(host := h.host, seqNo := h.seqNo, appliedHash := h.appliedHash)
    ensures Refs(h) && (BudgetsAgree(h, p.users) <==> BudgetsAgree(g, p.users)) && (RoomFor(h, p) <==> RoomFor(g, p))
    ensures forall now :: Enables(h, p, now) <==> Enables(g, p, now)
  {
  }

  // ---- what the install loops keep, at position (n, m) ----

  predicate HasBudget(s: Install, b: nat)
    requires b < |s.budgetObjs|
  {
    s.budgetObjs[b].id in s.budgets && s.budgets[s.budgetObjs[b].id] == b
  }

  /** Budgets only gain grant; new ones carry no traffic yet. */
  predicate BudgetsGrow(g: Gate, s: Install) {
    && |g.budgetObjs| <= |s.budgetObjs|
    && (forall b :: 0 <= b < |g.budgetObjs| ==>
          g.budgetObjs[b].grant <= s.budgetObjs[b].grant &&
          s.budgetObjs[b].(active := false, grant := 0) == g.budgetObjs[b].(active := false, grant := 0))
    && (forall b :: |g.budgetObjs| <= b < |s.budgetObjs| ==>
          s.budgetObjs[b].reserved == 0 && s.budgetObjs[b].connections == 0)
  }

  /** A budget is in the table, or is an old one that was not and is unchanged. */
  predicate BudgetPlace(g: Gate, s: Install, b: nat)
    requires b < |s.budgetObjs|
  {
    HasBudget(s, b) || (b < |g.budgetObjs| && !Mapped(g, b) && s.budgetObjs[b] == g.budgetObjs[b])
  }

  predicate BudgetKeys(g: Gate, s: Install) {
    && (forall k :: k in s.budgets ==> s.budgets[k] < |s.budgetObjs| && s.budgetObjs[s.budgets[k]].id == k)
    && (forall k :: k in g.budgets ==> k in s.budgets && s.budgets[k] == g.budgets[k])
    && (forall k :: k in s.budgets && k !in g.budgets ==> |g.budgetObjs| <= s.budgets[k])
    && (forall b :: 0 <= b < |s.budgetObjs| ==> BudgetPlace(g, s, b))
  }

  predicate BudgetsSane(s: Install) {
    forall b :: 0 <= b < |s.budgetObjs| ==> Sane(s.budgetObjs[b])
  }

  predicate DevicesGrow(g: Gate, s: Install) {
    && |g.deviceObjs| <= |s.deviceObjs|
    && (forall d :: 0 <= d < |s.deviceObjs| ==> s.deviceObjs[d].budget < |s.budgetObjs|)
    && (forall d :: 0 <= d < |g.deviceObjs| ==>
          s.deviceObjs[d].(active := false, deadline := 0) == g.deviceObjs[d].(active := false, deadline := 0))
    && (forall d :: |g.deviceObjs| <= d < |s.deviceObjs| ==> s.deviceObjs[d].connections == {})
  }

  ghost predicate Placed(p: Policy, start: int, s: Install, n: nat, m: nat, d: Device)
    requires d.budget < |s.budgetObjs|
  {
    exists i, j :: Before(p, i, j, n, m) && ListedAt(p, start, i, j, d, s.budgetObjs[d.budget])
  }

  ghost predicate NextOk(p: Policy, start: int, s: Install, n: nat, m: nat)
    requires forall d :: 0 <= d < |s.deviceObjs| ==> s.deviceObjs[d].budget < |s.budgetObjs|
  {
    forall t :: t in s.next ==>
      && s.next[t] < |s.deviceObjs|
      && var d := s.deviceObjs[s.next[t]];
         && d.token == t && Placed(p, start, s, n, m, d)
         && HasBudget(s, d.budget) && s.budgetObjs[d.budget].active
         && (d.active ==> s.budgetObjs[d.budget].used < s.budgetObjs[d.budget].grant)
  }

  /** An active device that the next map does not hold was active before. */
  predicate RestOk(g: Gate, s: Install) {
    forall d :: 0 <= d < |s.deviceObjs| && s.deviceObjs[d].active ==>
      (s.deviceObjs[d].token in s.next && s.next[s.deviceObjs[d].token] == d) ||
      (d < |g.deviceObjs| && g.deviceObjs[d].active)
  }

  ghost predicate InstallOk(g: Gate, p: Policy, start: int, s: Install, n: nat, m: nat) {
    && BudgetsGrow(g, s) && BudgetKeys(g, s) && BudgetsSane(s) && DevicesGrow(g, s)
    && NextOk(p, start, s, n, m) && RestOk(g, s)
  }

  lemma {:induction false} ValuesAreMapped(g: Gate)
    requires Refs(g) && Names(g)
    ensures forall b :: b in g.budgets.Values ==> b < |g.budgetObjs| && Mapped(g, b)
  {
    forall b | b in g.budgets.Values
      ensures b < |g.budgetObjs| && Mapped(g, b)
    {
      var k :| k in g.budgets && g.budgets[k] == b;
      assert g.budgetObjs[b].id == k;
    }
  }

  lemma {:induction false} StartKeys(g: Gate)
    requires Refs(g) && Names(g)
    ensures BudgetKeys(g, Install(g.budgets, RetireBudgets(g.budgetObjs, g.budgets.Values), g.deviceObjs, map[]))
  {
    var s := Install(g.budgets, RetireBudgets(g.budgetObjs, g.budgets.Values), g.deviceObjs, map[]);
    ValuesAreMapped(g);
    forall b | 0 <= b < |s.budgetObjs|
      ensures BudgetPlace(g, s, b)
    {
      assert HasBudget(s, b) || (!Mapped(g, b) && s.budgetObjs[b] == g.budgetObjs[b]);
    }
  }

  lemma {:induction false} StartBudgets(g: Gate)
    requires Refs(g) && Names(g) && AllSane(g) && DeadOk(g)
    ensures var s := Install(g.budgets, RetireBudgets(g.budgetObjs, g.budgets.Values), g.deviceObjs, map[]);
            BudgetsGrow(g, s) && BudgetsSane(s) && BudgetKeys(g, s)
  {
    hide BudgetKeys;
    var s := Install(g.budgets, RetireBudgets(g.budgetObjs, g.budgets.Values), g.deviceObjs, map[]);
    StartKeys(g);
    ValuesAreMapped(g);
    forall b | 0 <= b < |s.budgetObjs|
      ensures Sane(s.budgetObjs[b])
    {
      assert Sane(g.budgetObjs[b]);
    }
  }

  lemma {:induction false} StartOk(g: Gate, p: Policy, start: int)
    requires GateInv(g)
    ensures var s := Install(g.budgets, RetireBudgets(g.budgetObjs, g.budgets.Values), g.deviceObjs, map[]);
            InstallOk(g, p, start, s, 0, 0)
  {
    hide Names, AllSane, DeadOk, DeviceCounts, BudgetCounts, TotalCounts, ActiveOk, MappedOk;
    hide BudgetsGrow, BudgetsSane, BudgetKeys;
    StartBudgets(g);
  }

  // ---- one more budget ----

  lemma {:induction false} BudgetStepGrows(g: Gate, s: Install, u: UserPolicy)
    requires BudgetsGrow(g, s)
    requires forall k :: k in s.budgets ==> s.budgets[k] < |s.budgetObjs|
    requires u.lease.id in s.budgets ==> s.budgetObjs[s.budgets[u.lease.id]].grant <= u.lease.grant
    ensures BudgetsGrow(g, WithBudget(s, u))
  {
  }

  lemma {:induction false} BudgetStepPlace(g: Gate, s: Install, u: UserPolicy, b: nat)
    requires |g.budgetObjs| <= |s.budgetObjs| && BudgetKeys(g, s) && b < |WithBudget(s, u).budgetObjs|
    ensures BudgetPlace(g, WithBudget(s, u), b)
  {
    hide Mapped;
    var s' := WithBudget(s, u);
    if b != s'.budgets[u.lease.id] {
      assert s'.budgetObjs[b] == s.budgetObjs[b];
      assert BudgetPlace(g, s, b);
    }
  }

  lemma {:induction false} BudgetStepKeys(g: Gate, s: Install, u: UserPolicy)
    requires |g.budgetObjs| <= |s.budgetObjs| && BudgetKeys(g, s)
    ensures BudgetKeys(g, WithBudget(s, u))
  {
    hide BudgetPlace;
    var s' := WithBudget(s, u);
    forall b | 0 <= b < |s'.budgetObjs|
      ensures BudgetPlace(g, s', b)
    {
      BudgetStepPlace(g, s, u, b);
    }
  }

  lemma {:induction false} BudgetStepSane(s: Install, p: Policy, u: UserPolicy)
    requires BudgetsSane(s) && UserOk(p, u)
    requires forall k :: k in s.budgets ==> s.budgets[k] < |s.budgetObjs|
    requires u.lease.id in s.budgets ==> s.budgetObjs[s.budgets[u.lease.id]].grant <= u.lease.grant
    ensures BudgetsSane(WithBudget(s, u))
  {
    var s' := WithBudget(s, u);
    var b := s'.budgets[u.lease.id];
    forall x | 0 <= x < |s'.budgetObjs|
      ensures Sane(s'.budgetObjs[x])
    {
      assert x < |s.budgetObjs| ==> Sane(s.budgetObjs[x]);
    }
  }

  /** A lease named by no earlier user has a budget no placed device uses. */
  lemma {:induction false} BudgetStepNext(p: Policy, start: int, s: Install, n: nat)
    requires n < |p.users| && UsersOk(p, |p.users|)
    requires forall k :: k in s.budgets ==> s.budgets[k] < |s.budgetObjs| && s.budgetObjs[s.budgets[k]].id == k
    requires forall d :: 0 <= d < |s.deviceObjs| ==> s.deviceObjs[d].budget < |s.budgetObjs|
    requires NextOk(p, start, s, n, 0)
    ensures forall d :: 0 <= d < |s.deviceObjs| ==> s.deviceObjs[d].budget < |WithBudget(s, p.users[n]).budgetObjs|
    ensures NextOk(p, start, WithBudget(s, p.users[n]), n, 0)
  {
    hide UserOk, ListedAt;
    var u := p.users[n];
    var s' := WithBudget(s, u);
    forall t | t in s'.next
      ensures s'.next[t] < |s'.deviceObjs|
      ensures var d := s'.deviceObjs[s'.next[t]];
              && d.token == t && Placed(p, start, s', n, 0, d)
              && HasBudget(s', d.budget) && s'.budgetObjs[d.budget].active
              && (d.active ==> s'.budgetObjs[d.budget].used < s'.budgetObjs[d.budget].grant)
    {
      var d := s.deviceObjs[s.next[t]];
      var i, j :| Before(p, i, j, n, 0) && ListedAt(p, start, i, j, d, s.budgetObjs[d.budget]);
      ListedLease(p, start, i, j, d, s.budgetObjs[d.budget]);
      assert p.users[i].lease.id != u.lease.id;
      assert s'.budgetObjs[d.budget] == s.budgetObjs[d.budget];
      assert HasBudget(s', d.budget);
      assert Before(p, i, j, n, 0) && ListedAt(p, start, i, j, d, s'.budgetObjs[d.budget]);
    }
  }

  lemma {:induction false} ListedLease(p: Policy, start: int, i: int, j: int, d: Device, b: Budget)
    requires ListedAt(p, start, i, j, d, b)
    ensures InPolicy(p, i, j) && b.id == p.users[i].lease.id && d.token == Token(DeviceAt(p, i, j))
  {
  }

  // ---- how far the leases have come ----

  ghost predicate Leased(p: Policy, n: nat, k: string) {
    exists i :: 0 <= i < n && i < |p.users| && p.users[i].lease.id == k
  }

  /** A budget no installed user names still has its old grant. */
  ghost predicate LeasesDone(g: Gate, p: Policy, s: Install, n: nat)
    requires Refs(g) && n <= |p.users|
  {
    && (forall k :: k in s.budgets ==> s.budgets[k] < |s.budgetObjs|)
    && (forall k :: k in s.budgets && !Leased(p, n, k) ==>
          k in g.budgets && s.budgets[k] == g.budgets[k] && s.budgets[k] < |g.budgetObjs| &&
          s.budgetObjs[s.budgets[k]].grant == g.budgetObjs[g.budgets[k]].grant)
    && |s.budgets| <= |g.budgets| + CountNew(g.budgets, p.users[..n])
    && g.budgets.Keys <= s.budgets.Keys
  }

  lemma {:induction false} LeaseGrant(g: Gate, p: Policy, s: Install, n: nat)
    requires Refs(g) && n < |p.users| && UsersOk(p, |p.users|) && BudgetsAgree(g, p.users)
    requires LeasesDone(g, p, s, n)
    ensures var k := p.users[n].lease.id;
            k in s.budgets ==> s.budgetObjs[s.budgets[k]].grant <= p.users[n].lease.grant
  {
    hide UserOk;
    var u := p.users[n];
    if u.lease.id in s.budgets {
      assert !Leased(p, n, u.lease.id);
      assert BudgetAgrees(g.budgetObjs[g.budgets[u.lease.id]], u);
    }
  }

  lemma {:induction false} OneMoreKey<K, V>(m: map<K, V>, k: K, v: V)
    requires k !in m
    ensures |m[k := v]| == |m| + 1
  {
    assert m[k := v].Keys == m.Keys + {k};
  }

  lemma {:induction false} CountNewSnoc(budgets: map<string, nat>, users: seq<UserPolicy>, n: nat)
    requires n < |users|
    ensures CountNew(budgets, users[..n + 1]) ==
            CountNew(budgets, users[..n]) + if users[n].lease.id in budgets then 0 else 1
  {
    assert users[..n + 1][..n] == users[..n];
  }

  lemma {:induction false} LeaseStepSize(g: Gate, p: Policy, s: Install, n: nat)
    requires n < |p.users| && g.budgets.Keys <= s.budgets.Keys
    requires forall k :: k in s.budgets ==> s.budgets[k] < |s.budgetObjs|
    requires |s.budgets| <= |g.budgets| + CountNew(g.budgets, p.users[..n])
    ensures var s' := WithBudget(s, p.users[n]);
            |s'.budgets| <= |g.budgets| + CountNew(g.budgets, p.users[..n + 1]) && g.budgets.Keys <= s'.budgets.Keys
  {
    hide CountNew;
    var k := p.users[n].lease.id;
    CountNewSnoc(g.budgets, p.users, n);
    if k !in s.budgets {
      OneMoreKey(s.budgets, k, |s.budgetObjs|);
    }
  }

  lemma {:induction false} LeaseStep(g: Gate, p: Policy, s: Install, n: nat)
    requires Refs(g) && n < |p.users| && LeasesDone(g, p, s, n)
    requires forall k :: k in s.budgets ==> s.budgetObjs[s.budgets[k]].id == k
    ensures LeasesDone(g, p, WithBudget(s, p.users[n]), n + 1)
  {
    hide CountNew, Refs, Leased;
    var u, s' := p.users[n], WithBudget(s, p.users[n]);
    LeaseStepSize(g, p, s, n);
    forall k | k in s'.budgets && !Leased(p, n + 1, k)
      ensures k in g.budgets && s'.budgets[k] == g.budgets[k] && s'.budgets[k] < |g.budgetObjs| &&
              s'.budgetObjs[s'.budgets[k]].grant == g.budgetObjs[g.budgets[k]].grant
    {
      NotLeasedYet(p, n, k);
      assert s.budgetObjs[s.budgets[k]].id != u.lease.id;
    }
  }

  lemma {:induction false} NotLeasedYet(p: Policy, n: nat, k: string)
    requires n < |p.users| && !Leased(p, n + 1, k)
    ensures !Leased(p, n, k) && k != p.users[n].lease.id
  {
  }

  lemma {:induction false} BudgetStep(g: Gate, p: Policy, start: int, s: Install, n: nat)
    requires GateInv(g) && PolicyValid(p) && p.node.Some? && BudgetsAgree(g, p.users)
    requires n < |p.users| && InstallOk(g, p, start, s, n, 0) && LeasesDone(g, p, s, n)
    ensures InstallOk(g, p, start, WithBudget(s, p.users[n]), n, 0)
    ensures LeasesDone(g, p, WithBudget(s, p.users[n]), n + 1)
  {
    hide Names, AllSane, ActiveOk, MappedOk, DeadOk, DeviceCounts, BudgetCounts, TotalCounts;
    hide NextOk, BudgetsSane, DevicesOk, NodeOk, HeaderOk, UserOk, Sane, RestOk, LeasesDone;
    var u := p.users[n];
    assert UserOk(p, u);
    LeaseGrant(g, p, s, n);
    BudgetStepGrows(g, s, u);
    BudgetStepKeys(g, s, u);
    BudgetStepSane(s, p, u);
    BudgetStepNext(p, start, s, n);
    RestSame(g, s, WithBudget(s, u));
    LeaseStep(g, p, s, n);
  }

  lemma {:induction false} RestSame(g: Gate, s: Install, s': Install)
    requires RestOk(g, s) && s'.deviceObjs == s.deviceObjs && s'.next == s.next
    ensures RestOk(g, s')
  {
  }

  // ---- one more device ----

  /** No placed device has the next device's token. */
  lemma {:induction false} TokenIsNew(p: Policy, start: int, s: Install, n: nat, m: nat)
    requires PolicyValid(p) && p.node.Some? && InPolicy(p, n, m)
    requires forall d :: 0 <= d < |s.deviceObjs| ==> s.deviceObjs[d].budget < |s.budgetObjs|
    requires NextOk(p, start, s, n, m)
    ensures Token(DeviceAt(p, n, m)) !in s.next
  {
    hide UserOk, NodeOk, HeaderOk, ListedAt, UsersOk, DevicesOk;
    forall t | t in s.next
      ensures t != Token(DeviceAt(p, n, m))
    {
      var d := s.deviceObjs[s.next[t]];
      var i, j :| Before(p, i, j, n, m) && ListedAt(p, start, i, j, d, s.budgetObjs[d.budget]);
      ListedLease(p, start, i, j, d, s.budgetObjs[d.budget]);
      DifferentTokens(p, i, j, n, m);
    }
  }

  lemma {:induction false} DifferentTokens(p: Policy, i: int, j: int, n: nat, m: nat)
    requires PolicyValid(p) && p.node.Some? && InPolicy(p, n, m) && Before(p, i, j, n, m)
    ensures Token(DeviceAt(p, i, j)) != Token(DeviceAt(p, n, m))
  {
    hide UserOk, NodeOk, HeaderOk, UsersOk, KeyValid, Token;
    assert Before(p, i, j, |p.users|, 0) && Before(p, n, m, |p.users|, 0);
    assert DeviceOk(p, DeviceAt(p, i, j)) && DeviceOk(p, DeviceAt(p, n, m));
    if Token(DeviceAt(p, i, j)) == Token(DeviceAt(p, n, m)) {
      TokenNamesDevice(DeviceAt(p, i, j), DeviceAt(p, n, m));
    }
  }

  /** The user's own budget, as the snapshot gives it. */
  predicate BudgetReady(s: Install, u: UserPolicy) {
    && u.lease.id in s.budgets && s.budgets[u.lease.id] < |s.budgetObjs|
    && var b := s.budgetObjs[s.budgets[u.lease.id]];
       && b.id == u.lease.id && b.user == u.id && b.epoch == u.epoch && b.grant == u.lease.grant && b.active
  }

  lemma {:induction false} BudgetBecomesReady(g: Gate, s: Install, users: seq<UserPolicy>, n: nat)
    requires Refs(g) && BudgetsAgree(g, users) && n < |users|
    requires BudgetsGrow(g, s) && BudgetKeys(g, s)
    requires users[n].lease.id in s.budgets ==> users[n].lease.id in g.budgets
    ensures BudgetReady(WithBudget(s, users[n]), users[n])
  {
    var u := users[n];
    if u.lease.id in s.budgets {
      var b := g.budgets[u.lease.id];
      assert BudgetAgrees(g.budgetObjs[b], u);
      assert s.budgetObjs[b].(active := false, grant := 0) == g.budgetObjs[b].(active := false, grant := 0);
    }
  }

  lemma {:induction false} DeviceStepGrows(g: Gate, s: Install, start: int, p: Policy, u: UserPolicy,
                                           d: DevicePolicy, now: int)
    requires DevicesGrow(g, s) && InstallRefs(s, g.devices) && u.lease.id in s.budgets
    ensures DevicesGrow(g, WithDevice(s, g.devices, start, p, u, d, now))
  {
  }

  lemma {:induction false} DeviceStepRest(g: Gate, s: Install, start: int, p: Policy, u: UserPolicy,
                                          d: DevicePolicy, now: int)
    requires Refs(g) && Names(g) && DevicesGrow(g, s) && RestOk(g, s)
    requires InstallRefs(s, g.devices) && u.lease.id in s.budgets && Token(d) !in s.next
    ensures RestOk(g, WithDevice(s, g.devices, start, p, u, d, now))
  {
    hide Token, DeviceDeadline;
    var s' := WithDevice(s, g.devices, start, p, u, d, now);
    var ref := s'.next[Token(d)];
    assert s'.deviceObjs[ref].token == Token(d) by {
      ReusedToken(g, s, Token(d));
    }
    forall x | 0 <= x < |s'.deviceObjs| && s'.deviceObjs[x].active
      ensures (s'.deviceObjs[x].token in s'.next && s'.next[s'.deviceObjs[x].token] == x) ||
              (x < |g.deviceObjs| && g.deviceObjs[x].active)
    {
      if x != ref {
        assert s'.deviceObjs[x] == s.deviceObjs[x];
      }
    }
  }

  lemma {:induction false} ReusedToken(g: Gate, s: Install, t: string)
    requires Refs(g) && Names(g) && DevicesGrow(g, s)
    ensures t in g.devices ==> s.deviceObjs[g.devices[t]].token == t
  {
    if t in g.devices {
      var d := g.devices[t];
      assert s.deviceObjs[d].(active := false, deadline := 0) == g.deviceObjs[d].(active := false, deadline := 0);
    }
  }

  lemma {:induction false} DeviceStepNext(g: Gate, s: Install, start: int, p: Policy, n: nat, m: nat, now: int)
    requires Refs(g) && Names(g) && DevicesGrow(g, s) && InPolicy(p, n, m)
    requires InstallRefs(s, g.devices) && BudgetReady(s, p.users[n])
    requires NextOk(p, start, s, n, m) && Token(DeviceAt(p, n, m)) !in s.next
    ensures var s' := WithDevice(s, g.devices, start, p, p.users[n], DeviceAt(p, n, m), now);
            && (forall d :: 0 <= d < |s'.deviceObjs| ==> s'.deviceObjs[d].budget < |s'.budgetObjs|)
            && NextOk(p, start, s', n, m + 1)
  {
    hide Token, DeviceDeadline, Placed, ListedAt, Before, DevicesGrow;
    var u, d := p.users[n], DeviceAt(p, n, m);
    var s' := WithDevice(s, g.devices, start, p, u, d, now);
    DeviceStepGrows(g, s, start, p, u, d, now);
    GrownRefs(g, s);
    GrownRefs(g, s');
    ReusedToken(g, s, Token(d));
    forall t | t in s'.next
      ensures s'.next[t] < |s'.deviceObjs|
      ensures var d := s'.deviceObjs[s'.next[t]];
              && d.token == t && Placed(p, start, s', n, m + 1, d)
              && HasBudget(s', d.budget) && s'.budgetObjs[d.budget].active
              && (d.active ==> s'.budgetObjs[d.budget].used < s'.budgetObjs[d.budget].grant)
    {
      if t == Token(d) {
        NewlyPlaced(p, start, s', n, m, s'.deviceObjs[s'.next[t]]);
      } else {
        var x := s.next[t];
        assert s'.next[t] == x && s'.deviceObjs[x] == s.deviceObjs[x];
        StillPlaced(p, start, s, s', n, m, s.deviceObjs[x]);
      }
    }
  }

  lemma {:induction false} GrownRefs(g: Gate, s: Install)
    requires DevicesGrow(g, s)
    ensures forall d :: 0 <= d < |s.deviceObjs| ==> s.deviceObjs[d].budget < |s.budgetObjs|
  {
  }

  lemma {:induction false} NewlyPlaced(p: Policy, start: int, s: Install, n: nat, m: nat, d: Device)
    requires InPolicy(p, n, m) && BudgetReady(s, p.users[n])
    requires d.budget == s.budgets[p.users[n].lease.id] && d.token == Token(DeviceAt(p, n, m))
    requires d.deadline == DeviceDeadline(start, p, p.users[n], DeviceAt(p, n, m))
    ensures Placed(p, start, s, n, m + 1, d)
  {
    hide DeviceDeadline, Token;
    assert Before(p, n, m, n, m + 1) && ListedAt(p, start, n, m, d, s.budgetObjs[d.budget]);
  }

  lemma {:induction false} StillPlaced(p: Policy, start: int, s: Install, s': Install, n: nat, m: nat, d: Device)
    requires s'.budgetObjs == s.budgetObjs && d.budget < |s.budgetObjs| && Placed(p, start, s, n, m, d)
    ensures Placed(p, start, s', n, m + 1, d)
  {
    hide ListedAt;
    var i, j :| Before(p, i, j, n, m) && ListedAt(p, start, i, j, d, s.budgetObjs[d.budget]);
    assert Before(p, i, j, n, m + 1) && ListedAt(p, start, i, j, d, s'.budgetObjs[d.budget]);
  }

  lemma {:induction false} DeviceStep(g: Gate, p: Policy, start: int, s: Install, n: nat, m: nat, now: int)
    requires GateInv(g) && PolicyValid(p) && p.node.Some? && InPolicy(p, n, m)
    requires InstallOk(g, p, start, s, n, m) && InstallRefs(s, g.devices) && BudgetReady(s, p.users[n])
    ensures InstallOk(g, p, start, WithDevice(s, g.devices, start, p, p.users[n], DeviceAt(p, n, m), now), n, m + 1)
  {
    hide Names, AllSane, ActiveOk, MappedOk, DeadOk, DeviceCounts, BudgetCounts, TotalCounts;
    hide NextOk, BudgetsSane, DevicesOk, NodeOk, HeaderOk, UsersOk, RestOk, InstallRefs, BudgetKeys, BudgetsGrow;
    hide DeviceDeadline, Token;
    var u, d := p.users[n], DeviceAt(p, n, m);
    TokenIsNew(p, start, s, n, m);
    DeviceStepGrows(g, s, start, p, u, d, now);
    DeviceStepRest(g, s, start, p, u, d, now);
    DeviceStepNext(g, s, start, p, n, m, now);
    BudgetsUntouched(g, s, WithDevice(s, g.devices, start, p, u, d, now));
  }

  lemma {:induction false} BudgetsUntouched(g: Gate, s: Install, s': Install)
    requires BudgetsGrow(g, s) && BudgetKeys(g, s) && BudgetsSane(s)
    requires s'.budgets == s.budgets && s'.budgetObjs == s.budgetObjs
    ensures BudgetsGrow(g, s') && BudgetKeys(g, s') && BudgetsSane(s')
  {
    forall b | 0 <= b < |s'.budgetObjs|
      ensures BudgetPlace(g, s', b)
    {
      assert BudgetPlace(g, s, b) && (HasBudget(s', b) <==> HasBudget(s, b));
    }
  }

  // ---- the whole install ----

  function Begun(g: Gate): Install {
    Install(g.budgets, RetireBudgets(g.budgetObjs, g.budgets.Values), g.deviceObjs, map[])
  }

  lemma {:induction false} NextUserPlaced(p: Policy, start: int, s: Install, n: nat)
    requires n < |p.users|
    requires forall d :: 0 <= d < |s.deviceObjs| ==> s.deviceObjs[d].budget < |s.budgetObjs|
    requires NextOk(p, start, s, n, |p.users[n].devices|)
    ensures NextOk(p, start, s, n + 1, 0)
  {
    hide ListedAt;
    var m := |p.users[n].devices|;
    forall t | t in s.next
      ensures Placed(p, start, s, n + 1, 0, s.deviceObjs[s.next[t]])
    {
      var d := s.deviceObjs[s.next[t]];
      var i, j :| Before(p, i, j, n, m) && ListedAt(p, start, i, j, d, s.budgetObjs[d.budget]);
      assert Before(p, i, j, n + 1, 0) && ListedAt(p, start, i, j, d, s.budgetObjs[d.budget]);
    }
  }

  lemma {:induction false} LeaseIsFresh(g: Gate, p: Policy, s: Install, n: nat)
    requires Refs(g) && PolicyValid(p) && p.node.Some? && n < |p.users| && LeasesDone(g, p, s, n)
    ensures p.users[n].lease.id in s.budgets ==> p.users[n].lease.id in g.budgets
  {
    hide UserOk, DevicesOk, NodeOk, HeaderOk;
    assert !Leased(p, n, p.users[n].lease.id);
  }

  lemma {:induction false} InstallToOk(g: Gate, p: Policy, n: nat, m: nat, now: int)
    requires GateInv(g) && PolicyValid(p) && p.node.Some? && BudgetsAgree(g, p.users)
    requires n < |p.users| && m <= |p.users[n].devices| && InstallRefs(Begun(g), g.devices)
    ensures var s := InstallTo(Begun(g), g.devices, g.pendingStart, p, n, m, now);
            InstallOk(g, p, g.pendingStart, s, n, m) && LeasesDone(g, p, s, n + 1) && BudgetReady(s, p.users[n])
    decreases n, m + 1
  {
    hide Names, AllSane, ActiveOk, MappedOk, DeadOk, DeviceCounts, BudgetCounts, TotalCounts, Refs;
    hide InstallOk, InstallRefs, LeasesDone, BudgetReady, Begun;
    hide DeviceDeadline, Token, PolicyValid, BudgetsAgree, WithBudget, WithDevice;
    if m > 0 {
      InstallToOk(g, p, n, m - 1, now);
      var s := InstallTo(Begun(g), g.devices, g.pendingStart, p, n, m - 1, now);
      DeviceStep(g, p, g.pendingStart, s, n, m - 1, now);
      var u := p.users[n];
      ReadyUntouched(g, p, s, WithDevice(s, g.devices, g.pendingStart, p, u, u.devices[m - 1], now), n);
    } else {
      InstallUsersOk(g, p, n, now);
      var s := InstallUsers(Begun(g), g.devices, g.pendingStart, p, n, now);
      BudgetStep(g, p, g.pendingStart, s, n);
      LeaseIsFresh(g, p, s, n);
      ReadyAfterBudget(g, p, s, n);
    }
  }

  lemma {:induction false} ReadyAfterBudget(g: Gate, p: Policy, s: Install, n: nat)
    requires Refs(g) && BudgetsAgree(g, p.users) && n < |p.users|
    requires InstallOk(g, p, g.pendingStart, s, n, 0)
    requires p.users[n].lease.id in s.budgets ==> p.users[n].lease.id in g.budgets
    ensures BudgetReady(WithBudget(s, p.users[n]), p.users[n])
  {
    hide NextOk, BudgetsSane, RestOk, BudgetsAgree, WithBudget, BudgetReady;
    BudgetBecomesReady(g, s, p.users, n);
  }

  lemma {:induction false} ReadyUntouched(g: Gate, p: Policy, s: Install, s': Install, n: nat)
    requires Refs(g) && n < |p.users| && LeasesDone(g, p, s, n + 1) && BudgetReady(s, p.users[n])
    requires s'.budgets == s.budgets && s'.budgetObjs == s.budgetObjs
    ensures LeasesDone(g, p, s', n + 1) && BudgetReady(s', p.users[n])
  {
    hide Leased, CountNew;
  }

  lemma {:induction false} InstallUsersOk(g: Gate, p: Policy, n: nat, now: int)
    requires GateInv(g) && PolicyValid(p) && p.node.Some? && BudgetsAgree(g, p.users)
    requires n <= |p.users| && InstallRefs(Begun(g), g.devices)
    ensures var s := InstallUsers(Begun(g), g.devices, g.pendingStart, p, n, now);
            InstallOk(g, p, g.pendingStart, s, n, 0) && LeasesDone(g, p, s, n)
    decreases n, 0
  {
    hide AllSane, ActiveOk, MappedOk, DeadOk, DeviceCounts, BudgetCounts, TotalCounts, Names, Refs;
    hide InstallOk, InstallRefs, InstallTo, LeasesDone, Begun;
    hide DeviceDeadline, Token, PolicyValid, BudgetsAgree, WithBudget, WithDevice, BudgetReady;
    if n == 0 {
      LeasesBegun(g, p);
      BegunOk(g, p);
    } else {
      InstallToOk(g, p, n - 1, |p.users[n - 1].devices|, now);
      var s := InstallTo(Begun(g), g.devices, g.pendingStart, p, n - 1, |p.users[n - 1].devices|, now);
      NextUserOkay(g, p, s, n - 1);
    }
  }

  lemma {:induction false} BegunOk(g: Gate, p: Policy)
    requires GateInv(g)
    ensures InstallOk(g, p, g.pendingStart, Begun(g), 0, 0)
  {
    hide InstallOk;
    StartOk(g, p, g.pendingStart);
  }

  lemma {:induction false} LeasesBegun(g: Gate, p: Policy)
    requires Refs(g)
    ensures LeasesDone(g, p, Begun(g), 0)
  {
  }

  lemma {:induction false} NextUserOkay(g: Gate, p: Policy, s: Install, n: nat)
    requires n < |p.users| && InstallOk(g, p, g.pendingStart, s, n, |p.users[n].devices|)
    ensures InstallOk(g, p, g.pendingStart, s, n + 1, 0)
  {
    hide NextOk, BudgetsSane, RestOk, BudgetKeys, BudgetsGrow;
    NextUserPlaced(p, g.pendingStart, s, n);
  }

  lemma {:induction false} InstalledOk(g: Gate, p: Policy, now: int)
    requires GateInv(g) && PolicyValid(p) && BudgetsAgree(g, p.users) && RoomFor(g, p)
    ensures InstallOk(g, p, g.pendingStart, Installed(g, p, now), |p.users|, 0)
    ensures |Installed(g, p, now).budgets| <= MAX_BUDGETS
    ensures !Enables(g, p, now) ==> Installed(g, p, now).next == map[]
  {
    hide AllSane, ActiveOk, MappedOk, DeadOk, DeviceCounts, BudgetCounts, TotalCounts, Names;
    hide NextOk, BudgetsSane, RestOk, BudgetKeys, BudgetsGrow, DevicesGrow, PolicyValid, BudgetsAgree, InstallUsers;
    if Enables(g, p, now) {
      InstallUsersOk(g, p, |p.users|, now);
      assert p.users[..|p.users|] == p.users;
    } else {
      StartOk(g, p, g.pendingStart);
      NothingPlaced(p, g.pendingStart, Begun(g), |p.users|);
    }
  }

  lemma {:induction false} NothingPlaced(p: Policy, start: int, s: Install, n: nat)
    requires s.next == map[]
    requires forall d :: 0 <= d < |s.deviceObjs| ==> s.deviceObjs[d].budget < |s.budgetObjs|
    ensures NextOk(p, start, s, n, 0)
  {
  }

  // ---- switching over ----

  lemma {:induction false} GrownCounts(bs: seq<Budget>, cs: seq<Budget>)
    requires |bs| <= |cs| && forall b :: 0 <= b < |bs| ==> bs[b].connections == cs[b].connections
    requires forall b :: |bs| <= b < |cs| ==> cs[b].connections == 0
    ensures SumCounts(bs) == SumCounts(cs)
  {
    if |bs| < |cs| {
      GrownCounts(bs, cs[..|cs| - 1]);
    } else {
      SameCounts(bs, cs);
    }
  }

  lemma {:induction false} SwitchRefs(g: Gate, p: Policy, now: int)
    requires Refs(g) && InstallOk(g, p, g.pendingStart, Installed(g, p, now), |p.users|, 0)
    ensures Refs(Switch(g, p, now))
  {
    hide BudgetsSane, RestOk, Placed, HasBudget, Installed;
  }

  lemma {:induction false} SwitchDeviceCounts(g: Gate, p: Policy, now: int)
    requires Refs(g) && DeviceCounts(g) && DevicesGrow(g, Installed(g, p, now))
    ensures DeviceCounts(Switch(g, p, now))
  {
    hide Installed;
    var s, h := Installed(g, p, now), Switch(g, p, now);
    forall d | 0 <= d < |h.deviceObjs|
      ensures h.deviceObjs[d].connections == OpenOf(h.connObjs, d) && |h.deviceObjs[d].connections| <= MAX_PER_DEVICE
    {
      if d < |g.deviceObjs| {
        assert s.deviceObjs[d].(active := false, deadline := 0) == g.deviceObjs[d].(active := false, deadline := 0);
      } else {
        assert OpenOf(h.connObjs, d) == {};
      }
    }
  }

  lemma {:induction false} SwitchBudgetCounts(g: Gate, p: Policy, now: int)
    requires Refs(g) && BudgetCounts(g) && Refs(Switch(g, p, now))
    requires BudgetsGrow(g, Installed(g, p, now)) && DevicesGrow(g, Installed(g, p, now))
    ensures BudgetCounts(Switch(g, p, now))
  {
    hide Installed;
    var s, h := Installed(g, p, now), Switch(g, p, now);
    SameBudgetRefs(g, s);
    forall b | 0 <= b < |h.budgetObjs|
      ensures h.budgetObjs[b].connections == |OpenOn(h.connObjs, h.deviceObjs, b)|
    {
      if b < |g.budgetObjs| {
        assert s.budgetObjs[b].(active := false, grant := 0) == g.budgetObjs[b].(active := false, grant := 0);
        assert OpenOn(h.connObjs, h.deviceObjs, b) == OpenOn(g.connObjs, g.deviceObjs, b);
      } else {
        assert OpenOn(h.connObjs, h.deviceObjs, b) == {};
      }
    }
  }

  lemma {:induction false} SameBudgetRefs(g: Gate, s: Install)
    requires DevicesGrow(g, s)
    ensures forall d :: 0 <= d < |g.deviceObjs| ==> s.deviceObjs[d].budget == g.deviceObjs[d].budget
  {
    forall d | 0 <= d < |g.deviceObjs|
      ensures s.deviceObjs[d].budget == g.deviceObjs[d].budget
    {
      assert s.deviceObjs[d].(active := false, deadline := 0) == g.deviceObjs[d].(active := false, deadline := 0);
    }
  }

  lemma {:induction false} SwitchTotalCounts(g: Gate, p: Policy, now: int)
    requires Refs(g) && TotalCounts(g) && BudgetsGrow(g, Installed(g, p, now))
    ensures TotalCounts(Switch(g, p, now))
  {
    hide Installed;
    var s := Installed(g, p, now);
    forall b | 0 <= b < |g.budgetObjs|
      ensures s.budgetObjs[b].connections == g.budgetObjs[b].connections
    {
      assert s.budgetObjs[b].(active := false, grant := 0) == g.budgetObjs[b].(active := false, grant := 0);
    }
    GrownCounts(g.budgetObjs, s.budgetObjs);
  }

  lemma {:induction false} SwitchNames(g: Gate, p: Policy, now: int)
    requires Refs(g) && Refs(Switch(g, p, now)) && InstallOk(g, p, g.pendingStart, Installed(g, p, now), |p.users|, 0)
    ensures Names(Switch(g, p, now)) && AllSane(Switch(g, p, now)) && MappedOk(Switch(g, p, now))
  {
    hide Installed, RestOk, Placed, BudgetsGrow;
    var s, h := Installed(g, p, now), Switch(g, p, now);
    forall t | t in h.devices
      ensures h.deviceObjs[h.devices[t]].token == t
      ensures Mapped(h, h.deviceObjs[h.devices[t]].budget) && h.budgetObjs[h.deviceObjs[h.devices[t]].budget].active
    {
      assert HasBudget(s, s.deviceObjs[s.next[t]].budget);
    }
  }

  lemma {:induction false} SwitchDead(g: Gate, p: Policy, now: int)
    requires Refs(g) && DeadOk(g) && BudgetKeys(g, Installed(g, p, now))
    ensures DeadOk(Switch(g, p, now))
  {
    hide Installed;
    var s, h := Installed(g, p, now), Switch(g, p, now);
    forall b | 0 <= b < |h.budgetObjs| && !Mapped(h, b)
      ensures Retirable(h.budgetObjs[b])
    {
      assert BudgetPlace(g, s, b) && !HasBudget(s, b);
    }
  }

  lemma {:induction false} SwitchActive(g: Gate, p: Policy, now: int)
    requires Refs(g) && ActiveOk(g) && Refs(Switch(g, p, now))
    requires InstallOk(g, p, g.pendingStart, Installed(g, p, now), |p.users|, 0)
    ensures ActiveOk(Switch(g, p, now))
  {
    hide Installed, Placed, BudgetsGrow, BudgetKeys, BudgetsSane, HasBudget, Sane;
    var s, h := Installed(g, p, now), Switch(g, p, now);
    forall d | 0 <= d < |h.deviceObjs| && h.deviceObjs[d].active
      ensures Live(h, d) && h.budgetObjs[h.deviceObjs[d].budget].used < h.budgetObjs[h.deviceObjs[d].budget].grant
    {
      assert s.deviceObjs[d].active && d !in Dropped(g.devices, s.next);
      if !(s.deviceObjs[d].token in s.next && s.next[s.deviceObjs[d].token] == d) {
        KeptOrDropped(g, s, d);
      }
    }
  }

  /** A device that was live and is not in the next map is dropped. */
  lemma {:induction false} KeptOrDropped(g: Gate, s: Install, d: nat)
    requires d < |g.deviceObjs| && Live(g, d) && DevicesGrow(g, s)
    requires !(s.deviceObjs[d].token in s.next && s.next[s.deviceObjs[d].token] == d)
    ensures d in Dropped(g.devices, s.next)
  {
    assert s.deviceObjs[d].(active := false, deadline := 0) == g.deviceObjs[d].(active := false, deadline := 0);
  }

  lemma {:induction false} SwitchKeeps(g: Gate, p: Policy, now: int)
    requires GateInv(g) && PolicyValid(p) && BudgetsAgree(g, p.users) && RoomFor(g, p)
    ensures GateInv(Switch(g, p, now))
  {
    hide Names, AllSane, ActiveOk, MappedOk, DeadOk, DeviceCounts, BudgetCounts, TotalCounts;
    hide NextOk, BudgetsSane, RestOk, BudgetKeys, BudgetsGrow, DevicesGrow, PolicyValid, BudgetsAgree, Installed, Refs;
    InstalledOk(g, p, now);
    SwitchRefs(g, p, now);
    SwitchDeviceCounts(g, p, now);
    SwitchBudgetCounts(g, p, now);
    SwitchTotalCounts(g, p, now);
    SwitchNames(g, p, now);
    SwitchDead(g, p, now);
    SwitchActive(g, p, now);
  }
}
