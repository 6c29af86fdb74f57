// The lease gate's state and its lock-held regions, each one atomic step
// (singbox-bridge/proxy_policy.go).
//
// Go objects are entries of append-only arenas and pointers are indices, so a
// budget or device that has left its map is still there for the connections
// that refer to it.  A SHA-256 of a message is an input of the step that
// receives the message: nothing here depends on how it is computed.
module LeaseGate {
  import opened Common
  import opened LeasePolicy

  type Hash = string

  const MAX_BUDGETS: nat := 4096
  const MAX_CONNECTIONS: nat := 4096
  const MAX_PER_DEVICE: nat := 256

  datatype Budget = Budget(
    id: string, user: string, epoch: int,
    grant: int, used: int, reserved: int, active: bool, connections: int)
  datatype Device = Device(
    id: string, token: string, budget: nat, deadline: int, active: bool, connections: set<nat>)
  datatype Conn = Conn(device: nat, closed: bool)
  datatype Ingress = Ingress(id: nat, node: Node)

  datatype Gate = Gate(
    boot: string, host: string, seqNo: int,
    pendingSeq: int, pendingHash: Hash, pendingStart: int, appliedHash: Hash,
    budgets: map<string, nat>, devices: map<string, nat>, ingress: Option<Ingress>, connections: int,
    budgetObjs: seq<Budget>, deviceObjs: seq<Device>, connObjs: seq<Conn>)

  const NEW_GATE: Gate := Gate("", "", 0, 0, "", 0, "", map[], map[], None, 0, [], [], [])

  /** Every stored reference points into its arena. */
  predicate Refs(g: Gate) {
    && (forall k :: k in g.budgets ==> g.budgets[k] < |g.budgetObjs|)
    && (forall t :: t in g.devices ==> g.devices[t] < |g.deviceObjs|)
    && (forall d :: 0 <= d < |g.deviceObjs| ==> g.deviceObjs[d].budget < |g.budgetObjs|)
    && (forall c :: 0 <= c < |g.connObjs| ==> g.connObjs[c].device < |g.deviceObjs|)
  }

  function BudgetOf(g: Gate, c: nat): nat
    requires Refs(g) && c < |g.connObjs|
  {
    g.deviceObjs[g.connObjs[c].device].budget
  }

  function RetireBudgets(bs: seq<Budget>, refs: set<nat>): (r: seq<Budget>)
    ensures |r| == |bs|
    ensures forall b :: 0 <= b < |bs| ==> r[b] == if b in refs then bs[b].(active := false) else bs[b]
  {
    seq(|bs|, b requires 0 <= b < |bs| => if b in refs then bs[b].(active := false) else bs[b])
  }

  function Deactivate(ds: seq<Device>, refs: set<nat>): (r: seq<Device>)
    ensures |r| == |ds|
    ensures forall d :: 0 <= d < |ds| ==> r[d] == if d in refs then ds[d].(active := false) else ds[d]
  {
    seq(|ds|, d requires 0 <= d < |ds| => if d in refs then ds[d].(active := false) else ds[d])
  }

  // ---- begin ----

  predicate BeginMatches(g: Gate, r: Request, hash: Hash) {
    && (g.boot == "" || g.boot == r.boot)
    && r.seqNo == g.seqNo + 1
    && (g.pendingSeq == r.seqNo ==> g.pendingHash == hash)
  }

  /** None when the request is refused; the caller then stops the gate. */
  function BeginRegion(g: Gate, r: Request, hash: Hash, now: int): Option<Gate> {
    if !BeginMatches(g, r, hash) then None
    else if g.pendingSeq == r.seqNo then Some(g.(boot := r.boot))
    else if now < 0 || now > MAX_START then None
    else Some(g.(boot := r.boot, pendingSeq := r.seqNo, pendingHash := hash, pendingStart := now))
  }

  // ---- apply ----

  datatype Verdict = Refused | Repeated | Accepted

  predicate Matches(g: Gate, p: Policy) {
    p.boot == g.boot && (g.host == "" || p.host == g.host) && p.seqNo == g.pendingSeq && g.pendingStart > 0
  }

  predicate BudgetAgrees(b: Budget, u: UserPolicy) {
    b.user == u.id && b.epoch == u.epoch && u.lease.grant >= b.grant && u.lease.used <= b.used
  }

  predicate BudgetsAgree(g: Gate, users: seq<UserPolicy>)
    requires Refs(g)
  {
    forall i :: 0 <= i < |users| && users[i].lease.id in g.budgets ==>
      BudgetAgrees(g.budgetObjs[g.budgets[users[i].lease.id]], users[i])
  }

  function CountNew(budgets: map<string, nat>, users: seq<UserPolicy>): nat {
    if |users| == 0 then 0
    else CountNew(budgets, users[..|users| - 1]) + if users[|users| - 1].lease.id in budgets then 0 else 1
  }

  predicate Expired(g: Gate, p: Policy, now: int) {
    now < g.pendingStart || now >= Deadline(g.pendingStart, p.expires, p.generated)
  }

  predicate Enables(g: Gate, p: Policy, now: int) { !Expired(g, p, now) && p.node.Some? }

  /** What the install loops build up: budgets, and the next device map. */
  datatype Install = Install(
    budgets: map<string, nat>, budgetObjs: seq<Budget>, deviceObjs: seq<Device>, next: map<string, nat>)

  predicate InstallRefs(s: Install, prev: map<string, nat>) {
    && (forall k :: k in s.budgets ==> s.budgets[k] < |s.budgetObjs|)
    && (forall t :: t in prev ==> prev[t] < |s.deviceObjs|)
  }

  function WithBudget(s: Install, u: UserPolicy): (s': Install)
    requires forall k :: k in s.budgets ==> s.budgets[k] < |s.budgetObjs|
    ensures u.lease.id in s'.budgets
    ensures forall k :: k in s'.budgets ==> s'.budgets[k] < |s'.budgetObjs|
    ensures s'.deviceObjs == s.deviceObjs && s'.next == s.next
  {
    if u.lease.id in s.budgets then
      var b := s.budgets[u.lease.id];
      s.(budgetObjs := s.budgetObjs[b := s.budgetObjs[b].(grant := u.lease.grant, active := true)])
    else
      var b := Budget(u.lease.id, u.id, u.epoch, u.lease.grant, u.lease.used, 0, true, 0);
      s.(budgets := s.budgets[u.lease.id := |s.budgetObjs|], budgetObjs := s.budgetObjs + [b])
  }

  predicate Reusable(s: Install, prev: map<string, nat>, token: string, b: nat)
    requires InstallRefs(s, prev)
  {
    token in prev && s.deviceObjs[prev[token]].budget == b
  }

  function WithDevice(s: Install, prev: map<string, nat>, start: int, p: Policy, u: UserPolicy, d: DevicePolicy,
                      now: int): (s': Install)
    requires InstallRefs(s, prev) && u.lease.id in s.budgets
    ensures InstallRefs(s', prev)
    ensures s'.budgets == s.budgets && s'.budgetObjs == s.budgetObjs
  {
    var b := s.budgets[u.lease.id];
    var deadline := DeviceDeadline(start, p, u, d);
    var active := now < deadline && s.budgetObjs[b].used < s.budgetObjs[b].grant;
    if Reusable(s, prev, Token(d), b) then
      var ref := prev[Token(d)];
      s.(deviceObjs := s.deviceObjs[ref := s.deviceObjs[ref].(deadline := deadline, active := active)],
         next := s.next[Token(d) := ref])
    else
      s.(deviceObjs := s.deviceObjs + [Device(d.id, Token(d), b, deadline, active, {})],
         next := s.next[Token(d) := |s.deviceObjs|])
  }

  /** User n with the first m devices, on top of all users before n. */
  function InstallTo(s: Install, prev: map<string, nat>, start: int, p: Policy, n: nat, m: nat, now: int): (s': Install)
    requires InstallRefs(s, prev)
    requires n < |p.users| && m <= |p.users[n].devices|
    ensures InstallRefs(s', prev) && p.users[n].lease.id in s'.budgets
    decreases n, m + 1
  {
    if m > 0 then
      var u := p.users[n];
      WithDevice(InstallTo(s, prev, start, p, n, m - 1, now), prev, start, p, u, u.devices[m - 1], now)
    else
      WithBudget(InstallUsers(s, prev, start, p, n, now), p.users[n])
  }

  function InstallUsers(s: Install, prev: map<string, nat>, start: int, p: Policy, n: nat, now: int): (s': Install)
    requires InstallRefs(s, prev)
    requires n <= |p.users|
    ensures InstallRefs(s', prev)
    decreases n, 0
  {
    if n == 0 then s else InstallTo(s, prev, start, p, n - 1, |p.users[n - 1].devices|, now)
  }

  /** Devices of the old map that the next map does not keep. */
  function Dropped(prev: map<string, nat>, next: map<string, nat>): set<nat> {
    set t | t in prev && !(t in next && next[t] == prev[t]) :: prev[t]
  }

  function Installed(g: Gate, p: Policy, now: int): Install
    requires Refs(g)
  {
    var s := Install(g.budgets, RetireBudgets(g.budgetObjs, g.budgets.Values), g.deviceObjs, map[]);
    if Enables(g, p, now) then InstallUsers(s, g.devices, g.pendingStart, p, |p.users|, now) else s
  }

  predicate Replaces(g: Gate, p: Policy, now: int) {
    !Enables(g, p, now) || g.ingress.None? || g.ingress.value.node != p.node.value
  }

  function Switch(g: Gate, p: Policy, now: int): Gate
    requires Refs(g)
  {
    var s := Installed(g, p, now);
    g.(budgets := s.budgets, budgetObjs := s.budgetObjs,
       devices := s.next, deviceObjs := Deactivate(s.deviceObjs, Dropped(g.devices, s.next)),
       ingress := if Replaces(g, p, now) then None else g.ingress)
  }

  function Consume(g: Gate, p: Policy, hash: Hash): Gate {
    g.(host := p.host, seqNo := p.seqNo, appliedHash := hash)
  }

  predicate RoomFor(g: Gate, p: Policy) { |g.budgets| + CountNew(g.budgets, p.users) <= MAX_BUDGETS }

  /** The first lock-held region of apply, for a snapshot that passed validation. */
  function ApplyRegion(g: Gate, p: Policy, hash: Hash, now: int): (Gate, Verdict)
    requires Refs(g)
  {
    if !Matches(g, p) then (g, Refused)
    else if p.seqNo == g.seqNo then (g, if hash == g.appliedHash then Repeated else Refused)
    else if p.seqNo != g.seqNo + 1 then (g, Refused)
    else if !BudgetsAgree(g, p.users) || !RoomFor(g, p) then (Consume(g, p, hash), Refused)
    else (Switch(Consume(g, p, hash), p, now), Accepted)
  }

  // ---- stop, expire, reset, acknowledge ----

  function StopRegion(g: Gate): Gate {
    g.(ingress := None, devices := map[],
       deviceObjs := Deactivate(g.deviceObjs, g.devices.Values),
       budgetObjs := RetireBudgets(g.budgetObjs, g.budgets.Values))
  }

  function Overdue(g: Gate, now: int): set<nat>
    requires Refs(g)
  {
    set t | t in g.devices && g.deviceObjs[g.devices[t]].active &&
            (now < 0 || now >= g.deviceObjs[g.devices[t]].deadline) :: g.devices[t]
  }

  function ExpireRegion(g: Gate, now: int): Gate
    requires Refs(g)
  {
    g.(deviceObjs := Deactivate(g.deviceObjs, Overdue(g, now)))
  }

  predicate Quiet(g: Gate)
    requires Refs(g)
  {
    g.connections == 0 && forall k :: k in g.budgets ==> g.budgetObjs[g.budgets[k]].reserved == 0
  }

  /** One round of the reset loop; nothing changes while something is pending. */
  function ResetRegion(g: Gate): Gate
    requires Refs(g)
  {
    if Quiet(g)
    then g.(boot := "", host := "", seqNo := 0, pendingSeq := 0, pendingHash := "", pendingStart := 0,
            appliedHash := "", budgets := map[], devices := map[])
    else g
  }

  predicate Retirable(b: Budget) { !b.active && b.reserved == 0 && b.connections == 0 }

  function AcknowledgeRegion(g: Gate, reports: seq<Report>): Gate
    requires Refs(g)
  {
    g.(budgets := map k | k in g.budgets && !(Retirable(g.budgetObjs[g.budgets[k]]) &&
                                              Report(k, g.budgetObjs[g.budgets[k]].used) in reports) :: g.budgets[k])
  }

  // ---- connections ----

  predicate Admits(g: Gate, token: string, from: Option<nat>, now: int)
    requires Refs(g)
  {
    && 0 <= now
    && (from.None? || (g.ingress.Some? && g.ingress.value.id == from.value))
    && token in g.devices
    && var d := g.deviceObjs[g.devices[token]];
       var b := g.budgetObjs[d.budget];
       && d.active && b.active && now < d.deadline
       && b.used + b.reserved < b.grant
       && |d.connections| < MAX_PER_DEVICE && g.connections < MAX_CONNECTIONS
  }

  /** The new connection, if admitted, is the last of the arena. */
  function AttachRegion(g: Gate, token: string, from: Option<nat>, now: int): Gate
    requires Refs(g)
  {
    if !Admits(g, token, from, now) then g
    else
      var d := g.devices[token];
      var dev := g.deviceObjs[d];
      var b := g.budgetObjs[dev.budget];
      g.(connObjs := g.connObjs + [Conn(d, false)],
         deviceObjs := g.deviceObjs[d := dev.(connections := dev.connections + {|g.connObjs|})],
         budgetObjs := g.budgetObjs[dev.budget := b.(connections := b.connections + 1)],
         connections := g.connections + 1)
  }

  /** Idempotent: only the first close of a connection counts. */
  function CloseRegion(g: Gate, c: nat): Gate
    requires Refs(g) && c < |g.connObjs|
  {
    if g.connObjs[c].closed then g
    else
      var d := g.connObjs[c].device;
      var dev := g.deviceObjs[d];
      var b := g.budgetObjs[dev.budget];
      g.(connObjs := g.connObjs[c := Conn(d, true)],
         deviceObjs := g.deviceObjs[d := dev.(connections := dev.connections - {c})],
         budgetObjs := g.budgetObjs[dev.budget := b.(connections := b.connections - 1)],
         connections := g.connections - 1)
  }

  predicate Authorized(g: Gate, c: nat, now: int)
    requires Refs(g) && c < |g.connObjs|
  {
    var d := g.deviceObjs[g.connObjs[c].device];
    0 <= now && !g.connObjs[c].closed && d.active && g.budgetObjs[d.budget].active && now < d.deadline
  }

  /** How much of the wanted bytes a connection may move now. */
  function Allowance(g: Gate, c: nat, want: nat, whole: bool, now: int): (n: nat)
    requires Refs(g) && c < |g.connObjs|
  {
    var b := g.budgetObjs[BudgetOf(g, c)];
    var left := b.grant - b.used - b.reserved;
    if !Authorized(g, c, now) || left <= 0 || (whole && want > left) then 0
    else if want > left then left
    else want
  }

  function ReserveRegion(g: Gate, c: nat, want: nat, whole: bool, now: int): Gate
    requires Refs(g) && c < |g.connObjs|
  {
    var b := BudgetOf(g, c);
    var n := Allowance(g, c, want, whole, now);
    g.(budgetObjs := g.budgetObjs[b := g.budgetObjs[b].(reserved := g.budgetObjs[b].reserved + n)])
  }

  /** The mapped devices that share a budget. */
  function Sharing(g: Gate, b: nat): set<nat>
    requires Refs(g)
  {
    set t | t in g.devices && g.deviceObjs[g.devices[t]].budget == b :: g.devices[t]
  }

  /** Settles a reservation; a budget that is used up switches its devices off. */
  function FinishRegion(g: Gate, c: nat, reserved: nat, used: nat): Gate
    requires Refs(g) && c < |g.connObjs|
  {
    var b := BudgetOf(g, c);
    var budget := g.budgetObjs[b].(reserved := g.budgetObjs[b].reserved - reserved,
          used := g.budgetObjs[b].used + used);
    g.(budgetObjs := g.budgetObjs[b := budget],
       deviceObjs := if budget.used >= budget.grant then Deactivate(g.deviceObjs, Sharing(g, b)) else g.deviceObjs)
  }

  /** What a wrapper charges for a write: an uncertain one counts in full. */
  function Charge(allowed: nat, reported: int, failed: bool): int {
    if failed || reported != allowed then allowed else reported
  }
}
