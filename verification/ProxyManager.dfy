// The lease manager in the form of the source: one object, its fields updated
// in place, each method one lock-held region (singbox-bridge/proxy_policy.go),
// and the connection wrappers that call it (singbox-bridge/proxy_ingress.go).
module ProxyManager {
  import opened Common
  import opened Radix
  import opened LeasePolicy
  import opened LeaseGate
  import opened LeaseInvariant
  import opened LeaseConnections
  import opened LeaseApply
  import LeaseRuns
  import LeaseTheorems

  // ---- reports in lease order ----

  /** Byte order on ids. */
  predicate Less(a: string, b: string) {
    if |a| == 0 || |b| == 0 then |a| < |b|
    else a[0] < b[0] || (a[0] == b[0] && Less(a[1..], b[1..]))
  }

  lemma {:induction false} LessIsTotal(a: string, b: string)
    ensures Less(a, b) || Less(b, a) || a == b
    ensures !(Less(a, b) && Less(b, a)) && !Less(a, a)
    decreases |a|
  {
    if |a| > 0 && |b| > 0 {
      LessIsTotal(a[1..], b[1..]);
      assert a == [a[0]] + a[1..] && b == [b[0]] + b[1..];
    }
    if |a| == 0 {
    } else {
      LessIsTotal(a[1..], a[1..]);
    }
  }

  lemma {:induction false} LessIsTransitive(a: string, b: string, c: string)
    requires Less(a, b) && Less(b, c)
    ensures Less(a, c)
    decreases |a|
  {
    if |a| > 0 && a[0] == b[0] && b[0] == c[0] {
      LessIsTransitive(a[1..], b[1..], c[1..]);
    }
  }

  predicate Ordered(rs: seq<Report>) {
    forall i, j :: 0 <= i < j < |rs| ==> Less(rs[i].leaseId, rs[j].leaseId)
  }

  predicate DistinctIds(rs: seq<Report>) {
    forall i, j :: 0 <= i < j < |rs| ==> rs[i].leaseId != rs[j].leaseId
  }

  predicate SameReports(a: seq<Report>, b: seq<Report>) {
    multiset(a) == multiset(b)
  }

  /** Puts one report into its place among ordered ones. */
  method Insert(sorted: seq<Report>, r: Report) returns (out: seq<Report>)
    requires Ordered(sorted) && forall i :: 0 <= i < |sorted| ==> sorted[i].leaseId != r.leaseId
    ensures Ordered(out) && SameReports(out, sorted + [r])
  {
    hide Less, Ordered;
    var k := |sorted|;
    while k > 0 && Less(r.leaseId, sorted[k - 1].leaseId)
      invariant 0 <= k <= |sorted|
      invariant forall i :: k <= i < |sorted| ==> Less(r.leaseId, sorted[i].leaseId)
    {
      k := k - 1;
    }
    out := sorted[..k] + [r] + sorted[k..];
    InsertedOrdered(sorted, r, k);
    assert sorted == sorted[..k] + sorted[k..];
  }

  lemma {:induction false} InsertedOrdered(sorted: seq<Report>, r: Report, k: nat)
    requires Ordered(sorted) && k <= |sorted| && forall i :: 0 <= i < |sorted| ==> sorted[i].leaseId != r.leaseId
    requires k > 0 ==> !Less(r.leaseId, sorted[k - 1].leaseId)
    requires forall i :: k <= i < |sorted| ==> Less(r.leaseId, sorted[i].leaseId)
    ensures Ordered(sorted[..k] + [r] + sorted[k..])
  {
    hide Less;
    forall i | 0 <= i < k
      ensures Less(sorted[i].leaseId, r.leaseId)
    {
      LessIsTotal(r.leaseId, sorted[k - 1].leaseId);
      if i < k - 1 {
        LessIsTransitive(sorted[i].leaseId, sorted[k - 1].leaseId, r.leaseId);
      }
    }
    var out := sorted[..k] + [r] + sorted[k..];
    forall i, j | 0 <= i < j < |out|
      ensures Less(out[i].leaseId, out[j].leaseId)
    {
      var x := if i < k then i else i - 1;
      var y := if j < k then j else j - 1;
      assert i != k ==> out[i] == sorted[x];
      assert j != k ==> out[j] == sorted[y];
    }
  }

  method Sort(rs: seq<Report>) returns (out: seq<Report>)
    requires DistinctIds(rs)
    ensures Ordered(out) && SameReports(out, rs)
  {
    out := [];
    for n := 0 to |rs|
      invariant Ordered(out) && SameReports(out, rs[..n])
    {
      forall i | 0 <= i < |out|
        ensures out[i].leaseId != rs[n].leaseId
      {
        assert out[i] in multiset(out);
        assert out[i] in rs[..n];
      }
      assert rs[..n + 1] == rs[..n] + [rs[n]];
      out := Insert(out, rs[n]);
    }
    assert rs[..|rs|] == rs;
  }

  lemma {:induction false} OrderedIsDistinct(rs: seq<Report>)
    requires Ordered(rs)
    ensures DistinctIds(rs)
  {
    forall i, j | 0 <= i < j < |rs|
      ensures rs[i].leaseId != rs[j].leaseId
    {
      LessIsTotal(rs[i].leaseId, rs[j].leaseId);
    }
  }

  /** The reports name exactly the mapped budgets, each with its use. */
  predicate ReportsOf(rs: seq<Report>, budgets: map<string, nat>, objs: seq<Budget>)
    requires forall k :: k in budgets ==> budgets[k] < |objs|
  {
    && |rs| == |budgets|
    && (forall i :: 0 <= i < |rs| ==> rs[i].leaseId in budgets && rs[i].used == objs[budgets[rs[i].leaseId]].used)
    && (forall k :: k in budgets ==> Report(k, objs[budgets[k]].used) in rs)
  }

  lemma {:induction false} SortedReports(rs: seq<Report>, out: seq<Report>, budgets: map<string, nat>,
                                         objs: seq<Budget>)
    requires forall k :: k in budgets ==> budgets[k] < |objs|
    requires ReportsOf(rs, budgets, objs) && SameReports(out, rs)
    ensures ReportsOf(out, budgets, objs)
  {
    forall i | 0 <= i < |out|
      ensures out[i].leaseId in budgets && out[i].used == objs[budgets[out[i].leaseId]].used
    {
      assert out[i] in multiset(out);
    }
    forall k | k in budgets
      ensures Report(k, objs[budgets[k]].used) in out
    {
      assert Report(k, objs[budgets[k]].used) in multiset(rs);
    }
    assert |out| == |multiset(out)| == |rs|;
  }

  /** In a state that keeps the invariant, its own report passes its own check. */
  lemma {:induction false} ReportsAreValid(g: Gate, rs: seq<Report>)
    requires GateInv(g) && ReportsOf(rs, g.budgets, g.budgetObjs) && Ordered(rs)
    ensures ReportsValid(rs)
  {
    hide ActiveOk, MappedOk, DeadOk, DeviceCounts, BudgetCounts, TotalCounts, IdValid, Ordered;
    OrderedIsDistinct(rs);
    forall i | 0 <= i < |rs|
      ensures ReportOk(rs[i])
    {
      assert Sane(g.budgetObjs[g.budgets[rs[i].leaseId]]);
    }
  }

  /** So in every reachable state the gate accepts, as an acknowledgement, the report it would make. */
  lemma {:induction false} ReportsAlwaysAccepted(ws: seq<LeaseRuns.World>, steps: seq<LeaseRuns.Step>, i: nat,
                                                 rs: seq<Report>)
    requires LeaseTheorems.IsRun(ws, steps) && i < |ws| && Refs(ws[i].gate)
    requires ReportsOf(rs, ws[i].gate.budgets, ws[i].gate.budgetObjs) && Ordered(rs)
    ensures ReportsValid(rs) && |rs| <= MAX_REPORTS
  {
    hide Names, AllSane, ActiveOk, MappedOk, DeadOk, DeviceCounts, BudgetCounts, TotalCounts, Ordered, ReportsOf;
    hide LeaseTheorems.IsRun, ReportOk, Refs;
    LeaseTheorems.RunInv(ws, steps, i);
    ReportsAreValid(ws[i].gate, rs);
  }

  /** Acknowledging a gate's own report forgets exactly its retirable budgets. */
  lemma {:induction false} OwnReportForgets(g: Gate, rs: seq<Report>)
    requires GateInv(g) && ReportsOf(rs, g.budgets, g.budgetObjs)
    ensures forall k :: k in g.budgets ==>
              (k in AcknowledgeRegion(g, rs).budgets <==> !Retirable(g.budgetObjs[g.budgets[k]]))
  {
    hide Names, AllSane, ActiveOk, MappedOk, DeadOk, DeviceCounts, BudgetCounts, TotalCounts;
  }

  // ---- loops over a map switch off one entry at a time ----

  lemma {:induction false} OneMoreBudget(bs: seq<Budget>, done: set<nat>, b: nat)
    requires b < |bs|
    ensures var cs := RetireBudgets(bs, done);
            cs[b := cs[b].(active := false)] == RetireBudgets(bs, done + {b})
  {
  }

  lemma {:induction false} OneMoreDevice(ds: seq<Device>, done: set<nat>, d: nat)
    requires d < |ds|
    ensures var es := Deactivate(ds, done);
            es[d := es[d].(active := false)] == Deactivate(ds, done + {d})
  {
  }

  function Taken(m: map<string, nat>, left: set<string>): set<nat> {
    set k | k in m && k !in left :: m[k]
  }

  lemma {:induction false} TakeOne(m: map<string, nat>, left: set<string>, k: string)
    requires k in m && k in left
    ensures Taken(m, left - {k}) == Taken(m, left) + {m[k]}
  {
    var s := Taken(m, left) + {m[k]};
    forall x | x in s
      ensures x in Taken(m, left - {k})
    {
      if x == m[k] {
        assert k in m && k !in left - {k};
      } else {
        var j :| j in m && j !in left && m[j] == x;
        assert j !in left - {k};
      }
    }
  }

  lemma {:induction false} TakenAll(m: map<string, nat>)
    ensures Taken(m, {}) == m.Values
  {
    forall x | x in m.Values
      ensures x in Taken(m, {})
    {
      var k :| k in m && m[k] == x;
    }
  }

  /** The entries of a map that satisfy a test, among those already visited. */
  function Chosen(m: map<string, nat>, ks: set<string>, left: set<string>): set<nat> {
    set k | k in ks && k in m && k !in left :: m[k]
  }

  ghost function OverdueKeys(g: Gate, now: int): set<string>
    requires Refs(g)
  {
    set t | t in g.devices && g.deviceObjs[g.devices[t]].active &&
            (now < 0 || now >= g.deviceObjs[g.devices[t]].deadline)
  }

  lemma {:induction false} ChosenNone(m: map<string, nat>, ks: set<string>)
    ensures Chosen(m, ks, m.Keys) == {}
  {
  }

  lemma {:induction false} ChosenOverdue(g: Gate, now: int)
    requires Refs(g)
    ensures Chosen(g.devices, OverdueKeys(g, now), {}) == Overdue(g, now)
  {
    var ks := OverdueKeys(g, now);
    forall x | x in Overdue(g, now)
      ensures x in Chosen(g.devices, ks, {})
    {
      var t :| t in g.devices && g.devices[t] == x && t in ks;
    }
  }

  lemma {:induction false} ChooseOne(m: map<string, nat>, ks: set<string>, left: set<string>, k: string)
    requires k in m && k in left
    ensures Chosen(m, ks, left - {k}) == Chosen(m, ks, left) + (if k in ks then {m[k]} else {})
  {
    var s := Chosen(m, ks, left) + (if k in ks then {m[k]} else {});
    forall x | x in s
      ensures x in Chosen(m, ks, left - {k})
    {
      if k in ks && x == m[k] {
        assert k !in left - {k};
      } else {
        var j :| j in ks && j in m && j !in left && m[j] == x;
        assert j !in left - {k};
      }
    }
  }

  class Manager {
    var boot: string
    var host: string
    var seqNo: int
    var pendingSeq: int
    var pendingHash: Hash
    var pendingStart: int
    var appliedHash: Hash
    var budgets: map<string, nat>
    var devices: map<string, nat>
    var ingress: Option<Ingress>
    var connections: int
    var budgetObjs: seq<Budget>
    var deviceObjs: seq<Device>
    var connObjs: seq<Conn>

    function State(): Gate
      reads this
    {
      Gate(boot, host, seqNo, pendingSeq, pendingHash, pendingStart, appliedHash,
           budgets, devices, ingress, connections, budgetObjs, deviceObjs, connObjs)
    }

    constructor ()
      ensures State() == NEW_GATE && GateInv(State())
    {
      boot, host, seqNo := "", "", 0;
      pendingSeq, pendingHash, pendingStart, appliedHash := 0, "", 0, "";
      budgets, devices, ingress, connections := map[], map[], None, 0;
      budgetObjs, deviceObjs, connObjs := [], [], [];
      new;
      NewGateInv();
    }

    method Begin(r: Request, hash: Hash, now: int) returns (ok: bool)
      modifies this
      ensures match BeginRegion(old(State()), r, hash, now)
              case None => !ok && State() == old(State())
              case Some(g) => ok && State() == g
    {
      if (boot != "" && boot != r.boot) || r.seqNo != seqNo + 1 || (pendingSeq == r.seqNo && pendingHash != hash) {
        return false;
      }
      if pendingSeq != r.seqNo {
        if now < 0 || now > MAX_START {
          return false;
        }
        pendingSeq, pendingHash, pendingStart := r.seqNo, hash, now;
      }
      boot := r.boot;
      return true;
    }

    // ---- apply ----

    method RetireAll()
      requires Refs(State())
      modifies `budgetObjs
      ensures budgetObjs == RetireBudgets(old(budgetObjs), budgets.Values)
    {
      var left := budgets.Keys;
      assert budgetObjs == RetireBudgets(budgetObjs, Taken(budgets, left));
      while left != {}
        invariant left <= budgets.Keys
        invariant budgetObjs == RetireBudgets(old(budgetObjs), Taken(budgets, left))
      {
        var k :| k in left;
        TakeOne(budgets, left, k);
        OneMoreBudget(old(budgetObjs), Taken(budgets, left), budgets[k]);
        budgetObjs := budgetObjs[budgets[k] := budgetObjs[budgets[k]].(active := false)];
        left := left - {k};
      }
      TakenAll(budgets);
    }

    /** Whether every known lease agrees, and how many are new. */
    method Survey(users: seq<UserPolicy>) returns (agree: bool, added: nat)
      requires Refs(State())
      ensures agree <==> BudgetsAgree(State(), users)
      ensures agree ==> added == CountNew(budgets, users)
    {
      added := 0;
      for n := 0 to |users|
        invariant BudgetsAgree(State(), users[..n]) && added == CountNew(budgets, users[..n])
      {
        var u := users[n];
        assert users[..n + 1][..n] == users[..n] && users[..n + 1][n] == u;
        if u.lease.id in budgets {
          var b := budgetObjs[budgets[u.lease.id]];
          if b.user != u.id || b.epoch != u.epoch || u.lease.grant < b.grant || u.lease.used > b.used {
            assert !BudgetAgrees(b, users[n]);
            return false, added;
          }
        } else {
          added := added + 1;
        }
      }
      assert users[..|users|] == users;
      agree := true;
    }

    method InstallBudget(u: UserPolicy, ghost next: map<string, nat>) returns (b: nat)
      requires forall k :: k in budgets ==> budgets[k] < |budgetObjs|
      modifies `budgets, `budgetObjs
      ensures Install(budgets, budgetObjs, deviceObjs, next) ==
              WithBudget(Install(old(budgets), old(budgetObjs), deviceObjs, next), u)
      ensures u.lease.id in budgets && b == budgets[u.lease.id]
    {
      if u.lease.id !in budgets {
        budgets := budgets[u.lease.id := |budgetObjs|];
        budgetObjs := budgetObjs + [Budget(u.lease.id, u.id, u.epoch, 0, u.lease.used, 0, false, 0)];
      }
      b := budgets[u.lease.id];
      budgetObjs := budgetObjs[b := budgetObjs[b].(grant := u.lease.grant, active := true)];
    }

    method InstallAll(p: Policy, now: int) returns (next: map<string, nat>)
      requires Refs(State())
      modifies `budgets, `budgetObjs, `deviceObjs
      ensures Install(budgets, budgetObjs, deviceObjs, next) ==
              InstallUsers(Install(old(budgets), old(budgetObjs), old(deviceObjs), map[]), devices, pendingStart, p,
                    |p.users|, now)
    {
      hide WithBudget, WithDevice;
      ghost var s0 := Install(budgets, budgetObjs, deviceObjs, map[]);
      next := map[];
      for n := 0 to |p.users|
        invariant Install(budgets, budgetObjs, deviceObjs, next) == InstallUsers(s0, devices, pendingStart, p, n, now)
      {
        var u := p.users[n];
        var b := InstallBudget(u, next);
        for m := 0 to |u.devices|
          invariant Install(budgets, budgetObjs, deviceObjs, next) == InstallTo(s0, devices, pendingStart, p, n, m, now)
          invariant u.lease.id in budgets && b == budgets[u.lease.id]
        {
          next := InstallDevice(p, u, u.devices[m], b, next, now);
        }
      }
    }

    method InstallDevice(p: Policy, u: UserPolicy, d: DevicePolicy, b: nat, next: map<string, nat>, now: int)
      returns (next': map<string, nat>)
      requires InstallRefs(Install(budgets, budgetObjs, deviceObjs, next), devices)
      requires u.lease.id in budgets && b == budgets[u.lease.id]
      modifies `deviceObjs
      ensures Install(budgets, budgetObjs, deviceObjs, next') ==
              WithDevice(Install(budgets, budgetObjs, old(deviceObjs), next), devices, pendingStart, p, u, d, now)
    {
      var ttl := u.lease.expires - p.generated;
      if d.expires != 0 && d.expires - p.generated < ttl {
        ttl := d.expires - p.generated;
      }
      var deadline := Deadline(pendingStart, p.generated + ttl, p.generated);
      var token := Token(d);
      var state: nat;
      if token !in devices || deviceObjs[devices[token]].budget != b {
        state := |deviceObjs|;
        deviceObjs := deviceObjs + [Device(d.id, token, b, 0, false, {})];
      } else {
        state := devices[token];
      }
      deviceObjs := deviceObjs[state := deviceObjs[state].(
        deadline := deadline, active := now < deadline && budgetObjs[b].used < budgetObjs[b].grant)];
      next' := next[token := state];
    }

    /** Devices the next map does not keep are switched off. */
    method Drop(next: map<string, nat>)
      requires forall t :: t in devices ==> devices[t] < |deviceObjs|
      modifies `deviceObjs
      ensures deviceObjs == Deactivate(old(deviceObjs), Dropped(devices, next))
    {
      ghost var ks := set t | t in devices && !(t in next && next[t] == devices[t]);
      var left := devices.Keys;
      assert deviceObjs == Deactivate(deviceObjs, Chosen(devices, ks, left));
      while left != {}
        invariant left <= devices.Keys
        invariant deviceObjs == Deactivate(old(deviceObjs), Chosen(devices, ks, left))
      {
        var t :| t in left;
        ChooseOne(devices, ks, left, t);
        OneMoreDevice(old(deviceObjs), Chosen(devices, ks, left), devices[t]);
        if t !in next || next[t] != devices[t] || !deviceObjs[devices[t]].active {
          deviceObjs := deviceObjs[devices[t] := deviceObjs[devices[t]].(active := false)];
        }
        left := left - {t};
      }
      assert Chosen(devices, ks, {}) == Dropped(devices, next);
    }

    /** Installs a snapshot that was accepted: budgets, devices, and whether the listener stays. */
    method SwitchTo(p: Policy, now: int)
      requires Refs(State())
      modifies this
      ensures State() == Switch(old(State()), p, now)
    {
      hide InstallUsers, Deactivate, RetireBudgets, Dropped, Deadline, Refs;
      ghost var g := State();
      var expired := now < pendingStart || now >= Deadline(pendingStart, p.expires, p.generated);
      var next := map[];
      RetiredRefs(g);
      RetireAll();
      if !expired && p.node.Some? {
        next := InstallAll(p, now);
      }
      Drop(next);
      devices := next;
      if expired || p.node.None? || ingress.None? || ingress.value.node != p.node.value {
        ingress := None;
      }
    }

    method Apply(p: Policy, hash: Hash, now: int) returns (verdict: Verdict)
      requires Refs(State())
      modifies this
      ensures (State(), verdict) == ApplyRegion(old(State()), p, hash, now)
    {
      hide BudgetsAgree, CountNew, Switch, Refs;
      ghost var g := State();
      if p.boot != boot || (host != "" && p.host != host) || p.seqNo != pendingSeq || pendingStart <= 0 {
        return Refused;
      }
      if p.seqNo == seqNo {
        return if hash == appliedHash then Repeated else Refused;
      }
      if p.seqNo != seqNo + 1 {
        return Refused;
      }
      host, seqNo, appliedHash := p.host, p.seqNo, hash;
      SameAgreement(g, State(), p);
      var agree, added := Survey(p.users);
      if !agree || |budgets| + added > MAX_BUDGETS {
        return Refused;
      }
      SwitchTo(p, now);
      return Accepted;
    }

    // ---- winding down ----

    method Expire(now: int)
      requires Refs(State())
      modifies `deviceObjs
      ensures State() == ExpireRegion(old(State()), now)
    {
      ghost var g := State();
      hide Chosen, Overdue;
      ghost var ks := OverdueKeys(g, now);
      ChosenNone(devices, ks);
      var left := devices.Keys;
      assert deviceObjs == Deactivate(deviceObjs, Chosen(devices, ks, left));
      while left != {}
        invariant left <= devices.Keys
        invariant deviceObjs == Deactivate(g.deviceObjs, Chosen(devices, ks, left))
      {
        var t :| t in left;
        ChooseOne(devices, ks, left, t);
        OneMoreDevice(g.deviceObjs, Chosen(devices, ks, left), devices[t]);
        var d := deviceObjs[devices[t]];
        if d.active && (now < 0 || now >= d.deadline) {
          deviceObjs := deviceObjs[devices[t] := d.(active := false)];
        }
        left := left - {t};
      }
      ChosenOverdue(g, now);
    }

    method DeactivateAll()
      requires Refs(State())
      modifies `deviceObjs
      ensures deviceObjs == Deactivate(old(deviceObjs), devices.Values)
    {
      var left := devices.Keys;
      assert deviceObjs == Deactivate(deviceObjs, Taken(devices, left));
      while left != {}
        invariant left <= devices.Keys
        invariant deviceObjs == Deactivate(old(deviceObjs), Taken(devices, left))
      {
        var t :| t in left;
        TakeOne(devices, left, t);
        OneMoreDevice(old(deviceObjs), Taken(devices, left), devices[t]);
        deviceObjs := deviceObjs[devices[t] := deviceObjs[devices[t]].(active := false)];
        left := left - {t};
      }
      TakenAll(devices);
    }

    method Stop()
      requires GateInv(State())
      modifies this
      ensures State() == StopRegion(old(State())) && GateInv(State())
      ensures forall d :: 0 <= d < |deviceObjs| ==> !deviceObjs[d].active
      ensures forall b :: 0 <= b < |budgetObjs| ==> !budgetObjs[b].active
    {
      hide Names, AllSane, ActiveOk, MappedOk, DeadOk, DeviceCounts, BudgetCounts, TotalCounts, Deactivate;
      hide RetireBudgets;
      ghost var g := State();
      StopKeeps(g);
      StopSwitchesOff(g);
      ingress := None;
      DeactivateAll();
      RetireAll();
      devices := map[];
    }

    method Pending() returns (pending: bool)
      requires Refs(State())
      ensures pending <==> !Quiet(State())
    {
      var left := budgets.Keys;
      while left != {}
        invariant left <= budgets.Keys
        invariant forall k :: k in budgets && k !in left ==> budgetObjs[budgets[k]].reserved == 0
      {
        var k :| k in left;
        if budgetObjs[budgets[k]].reserved != 0 {
          return true;
        }
        left := left - {k};
      }
      return connections != 0;
    }

    /** Everything is switched off and nothing is listening. */
    ghost predicate Off()
      reads this
    {
      && devices == map[] && ingress == None
      && (forall d :: 0 <= d < |deviceObjs| ==> !deviceObjs[d].active)
      && (forall b :: 0 <= b < |budgetObjs| ==> !budgetObjs[b].active)
    }

    /** A request as it arrives: one that does not decode, or is refused, switches everything off. */
    method BeginMessage(r: Option<Request>, hash: Hash, now: int) returns (ok: bool)
      requires GateInv(State())
      modifies this
      ensures GateInv(State())
      ensures !ok ==> Off() && State() == StopRegion(old(State()))
      ensures ok <==> r.Some? && RequestValid(r.value) && BeginRegion(old(State()), r.value, hash, now).Some?
      ensures ok ==> Some(State()) == BeginRegion(old(State()), r.value, hash, now)
    {
      hide Names, AllSane, ActiveOk, MappedOk, DeadOk, DeviceCounts, BudgetCounts, TotalCounts, ReportsValid, Refs;
      ghost var g := State();
      ok := r.Some? && r.value.version == 1 && IdValid(r.value.boot) && 1 <= r.value.seqNo <= MAX_INTEGER;
      if ok {
        ok := CheckReports(r.value.reports);
      }
      if ok {
        ok := Begin(r.value, hash, now);
      }
      if ok {
        SameGateInv(g, State());
      } else {
        Stop();
      }
    }

    /** The tokens and passwords of the snapshot's active devices, for the listener. */
    method ListUsers(p: Policy) returns (users: seq<(string, string)>)
      requires Refs(State())
      ensures users == UsersBefore(State(), p, |p.users|)
    {
      users := [];
      for n := 0 to |p.users|
        invariant users == UsersBefore(State(), p, n)
      {
        var u := p.users[n];
        for m := 0 to |u.devices|
          invariant users == UsersTo(State(), p, n, m)
        {
          var d := u.devices[m];
          if Token(d) in devices && deviceObjs[devices[Token(d)]].active {
            users := users + [(Token(d), d.password)];
          }
        }
      }
    }

    /**
     * A snapshot as it arrives, with what the engine and the listener answer:
     * it succeeds exactly when its region does and they do, and any failure,
     * early or late, leaves everything switched off.
     */
    method ApplyMessage(p: Option<Policy>, hash: Hash, now: int, a: ListenerAnswers)
      returns (ok: bool, users: seq<(string, string)>)
      requires GateInv(State())
      modifies this
      ensures GateInv(State())
      ensures !ok ==> Off()
      ensures ok <==> p.Some? && PolicyValid(p.value) && Succeeds(old(State()), p.value, hash, now, a)
      ensures ok ==> State() == Served(old(State()), p.value, hash, now, a)
      ensures ok ==> users == UsersGiven(old(State()), p.value, hash, now)
    {
      hide Names, AllSane, ActiveOk, MappedOk, DeadOk, DeviceCounts, BudgetCounts, TotalCounts;
      hide PolicyValid, ApplyRegion, Refs, UsersBefore;
      users := [];
      var valid := false;
      if p.Some? {
        valid := ValidatePolicy(p.value);
      }
      if !valid {
        Stop();
        return false, users;
      }
      ApplyKeeps(State(), p.value, hash, now);
      ApplyKeepsStart(State(), p.value, hash, now);
      var verdict := Apply(p.value, hash, now);
      ghost var g := State();
      if verdict == Refused {
        Stop();
        return false, users;
      }
      var replace := ingress.None?;
      if verdict == Repeated || !Enabled(p.value, now) {
        return true, users;
      }
      if !a.engine || (replace && a.listener.None?) {
        Stop();
        return false, users;
      }
      users := ListUsers(p.value);
      if !a.updated {
        Stop();
        return false, users;
      }
      if replace {
        ingress := Some(Ingress(a.listener.value, p.value.node.value));
        SameGateInv(g, State());
        if !a.started {
          Stop();
          return false, users;
        }
      }
      return true, users;
    }

    predicate Enabled(p: Policy, now: int)
      reads this
    {
      p.node.Some? && !(now < pendingStart || now >= Deadline(pendingStart, p.expires, p.generated))
    }

    /** One round of the reset loop. */
    method TryReset() returns (ok: bool)
      requires Refs(State())
      modifies this
      ensures ok <==> Quiet(old(State()))
      ensures State() == ResetRegion(old(State()))
    {
      hide Quiet, Refs;
      var pending := Pending();
      if pending {
        return false;
      }
      boot, host, seqNo := "", "", 0;
      pendingSeq, pendingHash, pendingStart, appliedHash := 0, "", 0, "";
      budgets, devices := map[], map[];
      return true;
    }

    /** The report is in lease order, names every mapped budget once, and is one the manager accepts. */
    method Stats() returns (reports: seq<Report>)
      requires GateInv(State())
      ensures ReportsOf(reports, budgets, budgetObjs) && Ordered(reports)
      ensures ReportsValid(reports)
    {
      hide AllSane, ActiveOk, MappedOk, DeadOk, DeviceCounts, BudgetCounts, TotalCounts, IdValid, Ordered, SameReports;
      hide ReportsValid;
      var list: seq<Report> := [];
      var left := budgets.Keys;
      while left != {}
        invariant left <= budgets.Keys && |list| + |left| == |budgets|
        invariant forall i :: 0 <= i < |list| ==>
                    list[i].leaseId in budgets && list[i].leaseId !in left &&
                    list[i].used == budgetObjs[budgets[list[i].leaseId]].used
        invariant DistinctIds(list)
        invariant forall k :: k in budgets && k !in left ==> Report(k, budgetObjs[budgets[k]].used) in list
      {
        var k :| k in left;
        list := list + [Report(budgetObjs[budgets[k]].id, budgetObjs[budgets[k]].used)];
        left := left - {k};
      }
      reports := Sort(list);
      SortedReports(list, reports, budgets, budgetObjs);
      ReportsAreValid(State(), reports);
    }

    method Acknowledge(reports: seq<Report>)
      requires Refs(State())
      modifies `budgets
      ensures State() == AcknowledgeRegion(old(State()), reports)
    {
      ghost var g := State();
      assert budgets == AcknowledgeRegion(g, reports[..0]).budgets;
      for n := 0 to |reports|
        invariant budgets == AcknowledgeRegion(g, reports[..n]).budgets
      {
        var r := reports[n];
        assert reports[..n + 1] == reports[..n] + [r];
        if r.leaseId in budgets {
          var b := budgetObjs[budgets[r.leaseId]];
          if !b.active && b.used == r.used && b.reserved == 0 && b.connections == 0 {
            budgets := budgets - {r.leaseId};
          }
        }
      }
      assert reports[..|reports|] == reports;
    }

    // ---- connections ----

    method Attach(token: string, from: Option<nat>, now: int) returns (c: Option<nat>)
      requires Refs(State())
      modifies this
      ensures State() == AttachRegion(old(State()), token, from, now)
      ensures c == if Admits(old(State()), token, from, now) then Some(|old(connObjs)|) else None
    {
      hide Refs;
      if now < 0 || (from.Some? && (ingress.None? || ingress.value.id != from.value)) || token !in devices {
        return None;
      }
      TokenRefs(State(), token);
      var d := devices[token];
      var device := deviceObjs[d];
      var b := device.budget;
      if !device.active || !budgetObjs[b].active || now >= device.deadline ||
         budgetObjs[b].used + budgetObjs[b].reserved >= budgetObjs[b].grant ||
         |device.connections| >= MAX_PER_DEVICE || connections >= MAX_CONNECTIONS {
        return None;
      }
      c := Some(|connObjs|);
      Open(d);
    }

    /** The new connection of a device is the last of the arena. */
    method Open(d: nat)
      requires d < |deviceObjs| && deviceObjs[d].budget < |budgetObjs|
      modifies `connObjs, `deviceObjs, `budgetObjs, `connections
      ensures var device := old(deviceObjs)[d];
              var budget := old(budgetObjs)[device.budget];
              && connObjs == old(connObjs) + [Conn(d, false)] && connections == old(connections) + 1
              && deviceObjs == old(deviceObjs)[d := device.(connections := device.connections + {|old(connObjs)|})]
              && budgetObjs == old(budgetObjs)[device.budget := budget.(connections := budget.connections + 1)]
    {
      var device := deviceObjs[d];
      var b := device.budget;
      deviceObjs := deviceObjs[d := device.(connections := device.connections + {|connObjs|})];
      connObjs := connObjs + [Conn(d, false)];
      budgetObjs := budgetObjs[b := budgetObjs[b].(connections := budgetObjs[b].connections + 1)];
      connections := connections + 1;
    }

    method Close(c: nat)
      requires Refs(State()) && c < |connObjs|
      modifies this
      ensures State() == CloseRegion(old(State()), c)
    {
      if connObjs[c].closed {
        return;
      }
      var d := connObjs[c].device;
      var b := deviceObjs[d].budget;
      connObjs := connObjs[c := connObjs[c].(closed := true)];
      deviceObjs := deviceObjs[d := deviceObjs[d].(connections := deviceObjs[d].connections - {c})];
      budgetObjs := budgetObjs[b := budgetObjs[b].(connections := budgetObjs[b].connections - 1)];
      connections := connections - 1;
    }

    method Reserve(c: nat, want: nat, whole: bool, now: int) returns (n: nat)
      requires Refs(State()) && c < |connObjs|
      modifies `budgetObjs
      ensures n == Allowance(old(State()), c, want, whole, now) && Refs(State())
      ensures State() == ReserveRegion(old(State()), c, want, whole, now)
    {
      var d := deviceObjs[connObjs[c].device];
      var b := budgetObjs[d.budget];
      assert budgetObjs[d.budget := b] == budgetObjs;
      if now < 0 || connObjs[c].closed || !d.active || !b.active || now >= d.deadline {
        return 0;
      }
      var left := b.grant - b.used - b.reserved;
      if left <= 0 || (whole && want > left) {
        return 0;
      }
      n := if want > left then left else want;
      budgetObjs := budgetObjs[d.budget := b.(reserved := b.reserved + n)];
    }

    method Finish(c: nat, reserved: nat, used: nat)
      requires Refs(State()) && c < |connObjs|
      modifies `budgetObjs, `deviceObjs
      ensures State() == FinishRegion(old(State()), c, reserved, used)
    {
      ghost var g := State();
      var b := deviceObjs[connObjs[c].device].budget;
      budgetObjs := budgetObjs[b := budgetObjs[b].(reserved := budgetObjs[b].reserved - reserved,
                                                   used := budgetObjs[b].used + used)];
      if budgetObjs[b].used >= budgetObjs[b].grant {
        DeactivateSharing(b);
      }
    }

    method DeactivateSharing(b: nat)
      requires Refs(State())
      modifies `deviceObjs
      ensures deviceObjs == Deactivate(old(deviceObjs), Sharing(old(State()), b))
    {
      ghost var g := State();
      ghost var ks := set t | t in devices && deviceObjs[devices[t]].budget == b;
      var left := devices.Keys;
      assert deviceObjs == Deactivate(deviceObjs, Chosen(devices, ks, left));
      while left != {}
        invariant left <= devices.Keys
        invariant deviceObjs == Deactivate(g.deviceObjs, Chosen(devices, ks, left))
      {
        var t :| t in left;
        ChooseOne(devices, ks, left, t);
        OneMoreDevice(g.deviceObjs, Chosen(devices, ks, left), devices[t]);
        if deviceObjs[devices[t]].budget == b {
          deviceObjs := deviceObjs[devices[t] := deviceObjs[devices[t]].(active := false)];
        }
        left := left - {t};
      }
      assert Chosen(devices, ks, {}) == Sharing(g, b);
    }

    // ---- the wrappers, the only users of reserve and finish ----

    /**
     * A read of at most one scratch buffer: `arrived` is what the transport
     * delivered.  Only the allowed part reaches the caller, and it is charged.
     */
    method TcpRead(c: nat, p: array<Byte>, arrived: seq<Byte>, failed: bool, now: int)
      returns (n: nat, outcome: Outcome)
      requires Refs(State()) && c < |connObjs| && |arrived| <= p.Length && |arrived| <= SCRATCH
      modifies this, p
      ensures n == Allowance(old(State()), c, |arrived|, false, now) <= |arrived|
      ensures State() == Pass(old(State()), c, |arrived|, false, now)
      ensures p[..n] == arrived[..n] && p[n..] == old(p[n..])
      ensures outcome == if p.Length == 0 then Through(false) else if |arrived| == 0 then Through(failed)
                         else if n == 0 then Denied else if n < |arrived| then Cut else Through(failed)
    {
      hide ReserveRegion, FinishRegion, Allowance;
      AllowanceOfNone(State(), c, now);
      if p.Length == 0 {
        return 0, Through(false);
      }
      if |arrived| == 0 {
        return 0, Through(failed);
      }
      AllowanceFits(State(), c, |arrived|, false, now);
      ghost var g := State();
      var allowed := Reserve(c, |arrived|, false, now);
      if allowed == 0 {
        return 0, Denied;
      }
      for i := 0 to allowed
        modifies p
        invariant p[..i] == arrived[..i] && p[i..] == old(p[i..])
      {
        p[i] := arrived[i];
        assert old(p[i..])[1..] == old(p[i + 1..]);
      }
      Finish(c, allowed, allowed);
      return allowed, if allowed < |arrived| then Cut else Through(failed);
    }

    /** A write hands the allowed part to the transport and charges all of it, whatever the transport reports. */
    method TcpWrite(c: nat, p: seq<Byte>, reported: int, failed: bool, now: int)
      returns (sent: seq<Byte>, n: int, outcome: Outcome)
      requires Refs(State()) && c < |connObjs|
      modifies this
      ensures |sent| == Allowance(old(State()), c, |p|, false, now) && sent <= p
      ensures State() == Pass(old(State()), c, |p|, false, now)
      ensures n == if |sent| == 0 then 0 else reported
      ensures outcome == if |p| == 0 then Through(false) else if |sent| == 0 then Denied
                         else if !failed && reported < |p| then Cut else Through(failed)
    {
      hide ReserveRegion, FinishRegion, Allowance;
      AllowanceOfNone(State(), c, now);
      if |p| == 0 {
        return [], 0, Through(false);
      }
      AllowanceFits(State(), c, |p|, false, now);
      var allowed := Reserve(c, |p|, false, now);
      if allowed == 0 {
        return [], 0, Denied;
      }
      var used := reported;
      if failed || reported != allowed {
        used := allowed;
      }
      Finish(c, allowed, used);
      return p[..allowed], reported, if !failed && reported < |p| then Cut else Through(failed);
    }

    /** A packet passes whole, and is charged whole, or not at all; in either direction. */
    method Packet(c: nat, packet: seq<Byte>, now: int) returns (passed: Option<seq<Byte>>)
      requires Refs(State()) && c < |connObjs|
      modifies this
      ensures passed == if |packet| > 0 && Allowance(old(State()), c, |packet|, true, now) == |packet|
              then Some(packet) else None
      ensures State() == Pass(old(State()), c, |packet|, true, now)
      ensures passed.None? ==> State() == old(State())
    {
      hide ReserveRegion, FinishRegion;
      ghost var g := State();
      var allowed := Reserve(c, |packet|, true, now);
      NothingReserved(g, c, |packet|, true, now);
      if allowed != |packet| || |packet| == 0 {
        return None;
      }
      Finish(c, allowed, allowed);
      return Some(packet);
    }
  }

  /** Whether an engine runs, the new listener if one was made, whether its users were set, and whether it started. */
  datatype ListenerAnswers = ListenerAnswers(engine: bool, listener: Option<nat>, updated: bool, started: bool)

  /** The snapshot was accepted and is to be served. */
  predicate Serves(g: Gate, p: Policy, hash: Hash, now: int)
    requires Refs(g)
  {
    ApplyRegion(g, p, hash, now).1 == Accepted && Enables(g, p, now)
  }

  predicate Succeeds(g: Gate, p: Policy, hash: Hash, now: int, a: ListenerAnswers)
    requires Refs(g)
  {
    var (h, verdict) := ApplyRegion(g, p, hash, now);
    && verdict != Refused
    && (Serves(g, p, hash, now) ==> a.engine && a.updated && (h.ingress.Some? || (a.listener.Some? && a.started)))
  }

  /** The region's state, with the new listener where one was needed. */
  function Served(g: Gate, p: Policy, hash: Hash, now: int, a: ListenerAnswers): Gate
    requires Refs(g)
  {
    var h := ApplyRegion(g, p, hash, now).0;
    if Serves(g, p, hash, now) && h.ingress.None? && a.listener.Some?
    then h.(ingress := Some(Ingress(a.listener.value, p.node.value))) else h
  }

  lemma {:induction false} ApplyKeepsStart(g: Gate, p: Policy, hash: Hash, now: int)
    requires Refs(g)
    ensures ApplyRegion(g, p, hash, now).0.pendingStart == g.pendingStart
  {
    hide Installed;
  }

  predicate ActiveToken(g: Gate, t: string) {
    t in g.devices && g.devices[t] < |g.deviceObjs| && g.deviceObjs[g.devices[t]].active
  }

  function UsersTo(g: Gate, p: Policy, n: nat, m: nat): seq<(string, string)>
    requires n < |p.users| && m <= |p.users[n].devices|
    decreases n, m + 1
  {
    if m == 0 then UsersBefore(g, p, n)
    else
      var d := p.users[n].devices[m - 1];
      UsersTo(g, p, n, m - 1) + if ActiveToken(g, Token(d)) then [(Token(d), d.password)] else []
  }

  function UsersBefore(g: Gate, p: Policy, n: nat): seq<(string, string)>
    requires n <= |p.users|
    decreases n, 0
  {
    if n == 0 then [] else UsersTo(g, p, n - 1, |p.users[n - 1].devices|)
  }

  /** What the listener is told: nothing unless the snapshot is served. */
  function UsersGiven(g: Gate, p: Policy, hash: Hash, now: int): seq<(string, string)>
    requires Refs(g)
  {
    if Serves(g, p, hash, now) then UsersBefore(ApplyRegion(g, p, hash, now).0, p, |p.users|) else []
  }

  /** The listener is given exactly the active devices of the snapshot. */
  lemma {:induction false} UsersToAre(g: Gate, p: Policy, n: nat, m: nat, t: string, password: string)
    requires n < |p.users| && m <= |p.users[n].devices|
    ensures (t, password) in UsersTo(g, p, n, m) <==> ActiveToken(g, t) && Gives(p, n, m, t, password)
    decreases n, m + 1
  {
    hide Token, ActiveToken, Gives;
    if m == 0 {
      UsersBeforeAre(g, p, n, t, password);
    } else {
      UsersToAre(g, p, n, m - 1, t, password);
      GivesOneMore(p, n, m - 1, t, password);
    }
  }

  lemma {:induction false} UsersBeforeAre(g: Gate, p: Policy, n: nat, t: string, password: string)
    requires n <= |p.users|
    ensures (t, password) in UsersBefore(g, p, n) <==> ActiveToken(g, t) && Gives(p, n, 0, t, password)
    decreases n, 0
  {
    hide Token, ActiveToken, Gives;
    if n == 0 {
      GivesNone(p, t, password);
    } else {
      UsersToAre(g, p, n - 1, |p.users[n - 1].devices|, t, password);
      GivesNextUser(p, n - 1, t, password);
    }
  }

  /** A device before this place has the token and password. */
  ghost predicate Gives(p: Policy, n: nat, m: nat, t: string, password: string) {
    exists i, j :: Before(p, i, j, n, m) && Token(DeviceAt(p, i, j)) == t && DeviceAt(p, i, j).password == password
  }

  lemma {:induction false} GivesNone(p: Policy, t: string, password: string)
    ensures !Gives(p, 0, 0, t, password)
  {
  }

  lemma {:induction false} GivesOneMore(p: Policy, n: nat, m: nat, t: string, password: string)
    requires InPolicy(p, n, m)
    ensures Gives(p, n, m + 1, t, password) <==>
            Gives(p, n, m, t, password) || (Token(DeviceAt(p, n, m)) == t && DeviceAt(p, n, m).password == password)
  {
    hide Token;
    if Gives(p, n, m, t, password) {
      var i, j :| Before(p, i, j, n, m) && Token(DeviceAt(p, i, j)) == t && DeviceAt(p, i, j).password == password;
      assert Before(p, i, j, n, m + 1);
    }
    assert Before(p, n, m, n, m + 1);
  }

  lemma {:induction false} GivesNextUser(p: Policy, n: nat, t: string, password: string)
    requires n < |p.users|
    ensures Gives(p, n + 1, 0, t, password) <==> Gives(p, n, |p.users[n].devices|, t, password)
  {
    hide Token;
    var m := |p.users[n].devices|;
    if Gives(p, n + 1, 0, t, password) {
      var i, j :| Before(p, i, j, n + 1, 0) && Token(DeviceAt(p, i, j)) == t && DeviceAt(p, i, j).password == password;
      assert Before(p, i, j, n, m);
    }
    if Gives(p, n, m, t, password) {
      var i, j :| Before(p, i, j, n, m) && Token(DeviceAt(p, i, j)) == t && DeviceAt(p, i, j).password == password;
      assert Before(p, i, j, n + 1, 0);
    }
  }

  const SCRATCH: nat := 32768

  datatype Outcome = Denied | Cut | Through(failed: bool)

  /** What a wrapper call does to the gate when nothing comes in between. */
  function Pass(g: Gate, c: nat, want: nat, whole: bool, now: int): Gate
    requires Refs(g) && c < |g.connObjs|
  {
    var n := Allowance(g, c, want, whole, now);
    if n == 0 then g else FinishRegion(ReserveRegion(g, c, want, whole, now), c, n, n)
  }

  lemma {:induction false} AllowanceFits(g: Gate, c: nat, want: nat, whole: bool, now: int)
    requires Refs(g) && c < |g.connObjs|
    ensures Allowance(g, c, want, whole, now) <= want
    ensures Allowance(g, c, want, whole, now) == 0 ==> ReserveRegion(g, c, want, whole, now) == g
  {
    NothingReserved(g, c, want, whole, now);
  }

  lemma {:induction false} AllowanceOfNone(g: Gate, c: nat, now: int)
    requires Refs(g) && c < |g.connObjs|
    ensures Allowance(g, c, 0, false, now) == 0
  {
  }

  lemma {:induction false} NothingReserved(g: Gate, c: nat, want: nat, whole: bool, now: int)
    requires Refs(g) && c < |g.connObjs|
    ensures Allowance(g, c, want, whole, now) == 0 ==> ReserveRegion(g, c, want, whole, now) == g
  {
    hide Allowance;
    var b := BudgetOf(g, c);
    assert g.budgetObjs[b := g.budgetObjs[b]] == g.budgetObjs;
  }

  /**
   * A wrapper call charges its lease exactly the bytes let through, leaves no reservation, and touches no other
   * lease.
   */
  lemma {:induction false} PassCharges(g: Gate, c: nat, want: nat, whole: bool, now: int)
    requires GateInv(g) && c < |g.connObjs|
    ensures var h, b, n := Pass(g, c, want, whole, now), BudgetOf(g, c), Allowance(g, c, want, whole, now);
            && GateInv(h)
            && h.budgetObjs == g.budgetObjs[b := g.budgetObjs[b].(used := g.budgetObjs[b].used + n)]
            && (whole ==> n == 0 || n == want)
  {
    hide Names, AllSane, ActiveOk, MappedOk, DeadOk, DeviceCounts, BudgetCounts, TotalCounts, Deactivate, Sharing;
    var n, b := Allowance(g, c, want, whole, now), BudgetOf(g, c);
    assert g.budgetObjs[b := g.budgetObjs[b]] == g.budgetObjs;
    if n > 0 {
      var k := ReserveRegion(g, c, want, whole, now);
      ReserveKeeps(g, c, want, whole, now);
      assert k.budgetObjs[b].reserved >= n by { SaneAt(g, b); }
      FinishKeeps(k, c, n, n);
    }
  }

  lemma {:induction false} ApplyKeeps(g: Gate, p: Policy, hash: Hash, now: int)
    requires GateInv(g) && PolicyValid(p)
    ensures GateInv(ApplyRegion(g, p, hash, now).0)
  {
    hide Names, AllSane, ActiveOk, MappedOk, DeadOk, DeviceCounts, BudgetCounts, TotalCounts, PolicyValid, Switch;
    hide BudgetsAgree;
    var g1 := Consume(g, p, hash);
    SameGateInv(g, g1);
    SameAgreement(g, g1, p);
    if BudgetsAgree(g1, p.users) && RoomFor(g1, p) {
      SwitchKeeps(g1, p, now);
    }
  }

  lemma {:induction false} TokenRefs(g: Gate, token: string)
    requires Refs(g) && token in g.devices
    ensures g.devices[token] < |g.deviceObjs| && g.deviceObjs[g.devices[token]].budget < |g.budgetObjs|
  {
  }

  lemma {:induction false} RetiredRefs(g: Gate)
    requires Refs(g)
    ensures Refs(g.(budgetObjs := RetireBudgets(g.budgetObjs, g.budgets.Values)))
  {
  }
}
