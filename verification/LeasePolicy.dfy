// The messages of the proxy lease protocol and the checks made on them before
// the gate's lock is taken (singbox-bridge/proxy_policy.go).
//
// The model starts from decoded messages.  A list or an expiry that is null
// counts as a message that did not decode: the source refuses both in the same
// way.  A device carries the hex digest of its password, which is all the gate
// uses the password for, and a node carries the outcome of parsing its address.
module LeasePolicy {
  import opened Common
  import Base64

  const MAX_INTEGER: int := 9007199254740991
  const MAX_EPOCH_SECOND: int := 4102444800
  const SECOND: int := 1_000_000_000
  const MAX_REPORTS: nat := 4096

  datatype Report = Report(leaseId: string, used: int)
  datatype Request = Request(version: int, boot: string, seqNo: int, reports: seq<Report>)
  datatype Node = Node(listen: string, listenParses: bool, port: int, method': string, password: string)
  datatype Lease = Lease(id: string, grant: int, used: int, expires: int)
  datatype DevicePolicy = DevicePolicy(id: string, password: string, digest: string, expires: int)
  datatype UserPolicy = UserPolicy(id: string, epoch: int, lease: Lease, devices: seq<DevicePolicy>)
  datatype Policy = Policy(
    version: int, host: string, boot: string, seqNo: int,
    generated: int, expires: int, node: Option<Node>, users: seq<UserPolicy>)

  predicate IdChar(c: char) {
    'a' <= c <= 'z' || 'A' <= c <= 'Z' || '0' <= c <= '9' || c == '-' || c == '_' || c == '.'
  }

  predicate IdValid(s: string) {
    1 <= |s| <= 128 && forall i :: 0 <= i < |s| ==> IdChar(s[i])
  }

  /** Sixteen bytes in canonical base64. */
  predicate KeyValid(s: string) {
    var raw := Base64.Decode(s, Base64.Standard);
    raw.Some? && |raw.value| == 16
  }

  predicate ReportOk(r: Report) { IdValid(r.leaseId) && 0 <= r.used <= MAX_INTEGER }

  predicate ReportsValid(rs: seq<Report>) {
    && |rs| <= MAX_REPORTS
    && (forall i :: 0 <= i < |rs| ==> ReportOk(rs[i]))
    && (forall i, j :: 0 <= i < j < |rs| ==> rs[i].leaseId != rs[j].leaseId)
  }

  predicate RequestValid(r: Request) {
    && r.version == 1 && IdValid(r.boot) && 1 <= r.seqNo <= MAX_INTEGER && ReportsValid(r.reports)
  }

  method CheckReports(rs: seq<Report>) returns (ok: bool)
    ensures ok <==> ReportsValid(rs)
  {
    if |rs| > MAX_REPORTS {
      return false;
    }
    var seen: set<string> := {};
    for n := 0 to |rs|
      invariant seen == set i | 0 <= i < n :: rs[i].leaseId
      invariant forall i :: 0 <= i < n ==> ReportOk(rs[i])
      invariant forall i, j :: 0 <= i < j < n ==> rs[i].leaseId != rs[j].leaseId
    {
      if !ReportOk(rs[n]) || rs[n].leaseId in seen {
        return false;
      }
      seen := seen + {rs[n].leaseId};
    }
    return true;
  }

  // ---- snapshots ----

  predicate InPolicy(p: Policy, i: int, j: int) {
    0 <= i < |p.users| && 0 <= j < |p.users[i].devices|
  }

  function DeviceAt(p: Policy, i: int, j: int): DevicePolicy
    requires InPolicy(p, i, j)
  {
    p.users[i].devices[j]
  }

  /** The device comes before position (n, m) in the order the loops visit. */
  predicate Before(p: Policy, i: int, j: int, n: int, m: int) {
    InPolicy(p, i, j) && (i < n || (i == n && j < m))
  }

  predicate HeaderOk(p: Policy) {
    && p.version == 1 && IdValid(p.host) && IdValid(p.boot) && 1 <= p.seqNo <= MAX_INTEGER
    && 1 <= p.generated <= MAX_EPOCH_SECOND
    && p.generated < p.expires <= p.generated + 60
    && |p.users| <= 256
  }

  predicate NodeOk(n: Node) {
    && n.listenParses && 1 <= n.port <= 65535
    && n.method' == "2022-blake3-aes-128-gcm" && KeyValid(n.password)
  }

  predicate UserOk(p: Policy, u: UserPolicy) {
    && IdValid(u.id) && 1 <= u.epoch <= MAX_INTEGER && IdValid(u.lease.id)
    && 1 <= u.lease.grant <= MAX_INTEGER && 0 <= u.lease.used <= u.lease.grant
    && p.generated < u.lease.expires <= p.expires
    && 1 <= |u.devices| <= 32
  }

  predicate DeviceOk(p: Policy, d: DevicePolicy) {
    && IdValid(d.id) && KeyValid(d.password)
    && p.node.Some? && d.password != p.node.value.password
    && 0 <= d.expires <= MAX_EPOCH_SECOND && (d.expires == 0 || d.expires > p.generated)
  }

  /** Users before n are fine and pairwise distinct. */
  predicate UsersOk(p: Policy, n: int) {
    && (forall i :: 0 <= i < n && i < |p.users| ==> UserOk(p, p.users[i]))
    && (forall i, k :: 0 <= i < k < n && k < |p.users| ==>
          p.users[i].id != p.users[k].id && p.users[i].lease.id != p.users[k].lease.id)
  }

  /** Devices before (n, m) are fine and pairwise distinct across all users. */
  ghost predicate DevicesOk(p: Policy, n: int, m: int) {
    && (forall i, j :: Before(p, i, j, n, m) ==> DeviceOk(p, DeviceAt(p, i, j)))
    && (forall i, j, i', j' :: Before(p, i, j, n, m) && Before(p, i', j', n, m) && (i != i' || j != j') ==>
          DeviceAt(p, i, j).id != DeviceAt(p, i', j').id &&
          DeviceAt(p, i, j).password != DeviceAt(p, i', j').password)
  }

  ghost predicate PolicyValid(p: Policy) {
    && HeaderOk(p)
    && (if p.node.None? then |p.users| == 0
        else NodeOk(p.node.value) && UsersOk(p, |p.users|) && DevicesOk(p, |p.users|, 0))
  }

  // ---- the validator's loops ----

  ghost predicate SeenUsers(p: Policy, n: int, users: set<string>, leases: set<string>) {
    && 0 <= n <= |p.users|
    && users == (set i | 0 <= i < n :: p.users[i].id)
    && leases == (set i | 0 <= i < n :: p.users[i].lease.id)
  }

  ghost predicate SeenDevices(p: Policy, n: int, m: int, devices: set<string>, keys: set<string>) {
    && (forall i, j :: Before(p, i, j, n, m) ==> DeviceAt(p, i, j).id in devices && DeviceAt(p, i, j).password in keys)
    && (forall s {:trigger HasId(p, n, m, s)} :: s in devices ==> HasId(p, n, m, s))
    && (forall s {:trigger HasKey(p, n, m, s)} :: s in keys ==> HasKey(p, n, m, s))
  }

  ghost predicate HasId(p: Policy, n: int, m: int, s: string) {
    exists i, j :: Before(p, i, j, n, m) && DeviceAt(p, i, j).id == s
  }

  ghost predicate HasKey(p: Policy, n: int, m: int, s: string) {
    exists i, j :: Before(p, i, j, n, m) && DeviceAt(p, i, j).password == s
  }

  lemma {:induction false} DuplicateRefused(p: Policy, i: int, j: int, n: int, m: int)
    requires InPolicy(p, n, m) && Before(p, i, j, n, m)
    requires DeviceAt(p, i, j).id == DeviceAt(p, n, m).id || DeviceAt(p, i, j).password == DeviceAt(p, n, m).password
    ensures !DevicesOk(p, |p.users|, 0)
  {
    assert Before(p, i, j, |p.users|, 0) && Before(p, n, m, |p.users|, 0);
  }

  lemma {:induction false} BadDeviceRefused(p: Policy, n: int, m: int)
    requires InPolicy(p, n, m) && !DeviceOk(p, DeviceAt(p, n, m))
    ensures !DevicesOk(p, |p.users|, 0)
  {
    assert Before(p, n, m, |p.users|, 0);
  }

  lemma {:induction false} DeviceRefused(p: Policy, n: int, m: int, devices: set<string>, keys: set<string>)
    requires InPolicy(p, n, m) && SeenDevices(p, n, m, devices, keys)
    requires DeviceAt(p, n, m).id in devices || DeviceAt(p, n, m).password in keys
    ensures !DevicesOk(p, |p.users|, 0)
  {
    var d := DeviceAt(p, n, m);
    if d.id in devices {
      assert HasId(p, n, m, d.id);
      var i, j :| Before(p, i, j, n, m) && DeviceAt(p, i, j).id == d.id;
      DuplicateRefused(p, i, j, n, m);
    } else {
      assert HasKey(p, n, m, d.password);
      var i, j :| Before(p, i, j, n, m) && DeviceAt(p, i, j).password == d.password;
      DuplicateRefused(p, i, j, n, m);
    }
  }

  lemma {:induction false} DeviceAccepted(p: Policy, n: int, m: int, devices: set<string>, keys: set<string>)
    requires InPolicy(p, n, m) && SeenDevices(p, n, m, devices, keys) && DevicesOk(p, n, m)
    requires var d := DeviceAt(p, n, m);
             DeviceOk(p, d) && d.id !in devices && d.password !in keys
    ensures DevicesOk(p, n, m + 1)
    ensures SeenDevices(p, n, m + 1, devices + {DeviceAt(p, n, m).id}, keys + {DeviceAt(p, n, m).password})
  {
    assert forall i, j :: Before(p, i, j, n, m + 1) <==> Before(p, i, j, n, m) || (i == n && j == m);
    assert Before(p, n, m, n, m + 1);
    forall s | s in devices + {DeviceAt(p, n, m).id}
      ensures HasId(p, n, m + 1, s)
    {
      assert s in devices ==> HasId(p, n, m, s);
    }
    forall s | s in keys + {DeviceAt(p, n, m).password}
      ensures HasKey(p, n, m + 1, s)
    {
      assert s in keys ==> HasKey(p, n, m, s);
    }
  }

  lemma {:induction false} NextUserSeen(p: Policy, n: int, devices: set<string>, keys: set<string>)
    requires 0 <= n < |p.users| && SeenDevices(p, n, |p.users[n].devices|, devices, keys)
    ensures SeenDevices(p, n + 1, 0, devices, keys)
  {
    var m := |p.users[n].devices|;
    assert forall i, j :: Before(p, i, j, n + 1, 0) <==> Before(p, i, j, n, m);
    forall s | s in devices
      ensures HasId(p, n + 1, 0, s)
    {
      assert HasId(p, n, m, s);
    }
    forall s | s in keys
      ensures HasKey(p, n + 1, 0, s)
    {
      assert HasKey(p, n, m, s);
    }
  }

  lemma {:induction false} NextUserOk(p: Policy, n: int)
    requires 0 <= n < |p.users| && DevicesOk(p, n, |p.users[n].devices|)
    ensures DevicesOk(p, n + 1, 0)
  {
    assert forall i, j {:trigger Before(p, i, j, n + 1, 0)} ::
        Before(p, i, j, n + 1, 0) <==> Before(p, i, j, n, |p.users[n].devices|);
  }

  method CheckDevices(p: Policy, n: int, devices: set<string>, keys: set<string>)
    returns (ok: bool, devices': set<string>, keys': set<string>)
    requires p.node.Some? && 0 <= n < |p.users|
    requires SeenDevices(p, n, 0, devices, keys) && DevicesOk(p, n, 0)
    ensures ok ==> DevicesOk(p, n + 1, 0) && SeenDevices(p, n + 1, 0, devices', keys')
    ensures !ok ==> !DevicesOk(p, |p.users|, 0)
  {
    ok, devices', keys' := true, devices, keys;
    for m := 0 to |p.users[n].devices|
      invariant SeenDevices(p, n, m, devices', keys') && DevicesOk(p, n, m)
    {
      var d := p.users[n].devices[m];
      assert d == DeviceAt(p, n, m);
      if !DeviceOk(p, d) || d.id in devices' || d.password in keys' {
        if DeviceOk(p, d) {
          DeviceRefused(p, n, m, devices', keys');
        } else {
          BadDeviceRefused(p, n, m);
        }
        ok := false;
        return;
      }
      DeviceAccepted(p, n, m, devices', keys');
      devices' := devices' + {d.id};
      keys' := keys' + {d.password};
    }
    NextUserSeen(p, n, devices', keys');
    NextUserOk(p, n);
  }

  lemma {:induction false} UserRefused(p: Policy, n: int, users: set<string>, leases: set<string>)
    requires n < |p.users| && SeenUsers(p, n, users, leases)
    requires !UserOk(p, p.users[n]) || p.users[n].id in users || p.users[n].lease.id in leases
    ensures !UsersOk(p, |p.users|)
  {
  }

  lemma {:induction false} UserAccepted(p: Policy, n: int, users: set<string>, leases: set<string>)
    requires n < |p.users| && SeenUsers(p, n, users, leases) && UsersOk(p, n)
    requires UserOk(p, p.users[n]) && p.users[n].id !in users && p.users[n].lease.id !in leases
    ensures UsersOk(p, n + 1)
    ensures SeenUsers(p, n + 1, users + {p.users[n].id}, leases + {p.users[n].lease.id})
  {
  }

  /** The snapshot check, exact in both directions. */
  method ValidatePolicy(p: Policy) returns (ok: bool)
    ensures ok <==> PolicyValid(p)
  {
    hide HeaderOk, NodeOk, UserOk;
    if !HeaderOk(p) {
      return false;
    }
    if p.node.None? {
      return |p.users| == 0;
    }
    if !NodeOk(p.node.value) {
      return false;
    }
    var users, leases, devices, keys := {}, {}, {}, {};
    for n := 0 to |p.users|
      invariant SeenUsers(p, n, users, leases) && UsersOk(p, n)
      invariant SeenDevices(p, n, 0, devices, keys) && DevicesOk(p, n, 0)
    {
      var u := p.users[n];
      if !UserOk(p, u) || u.id in users || u.lease.id in leases {
        UserRefused(p, n, users, leases);
        return false;
      }
      UserAccepted(p, n, users, leases);
      users := users + {u.id};
      leases := leases + {u.lease.id};
      ok, devices, keys := CheckDevices(p, n, devices, keys);
      if !ok {
        return;
      }
    }
    return true;
  }

  // ---- deadlines ----

  /** Seconds a device may use its lease, counted from the snapshot's second. */
  function Ttl(p: Policy, u: UserPolicy, d: DevicePolicy): int {
    var lease := u.lease.expires - p.generated;
    if d.expires != 0 && d.expires - p.generated < lease then d.expires - p.generated else lease
  }

  /** One second is taken off for the server's rounding down of `generated`. */
  function Deadline(start: int, expires: int, generated: int): int {
    start + (expires - generated - 1) * SECOND
  }

  function DeviceDeadline(start: int, p: Policy, u: UserPolicy, d: DevicePolicy): int {
    Deadline(start, p.generated + Ttl(p, u, d), p.generated)
  }

  function Token(d: DevicePolicy): string { d.id + ":" + d.digest }

  lemma {:induction false} TokenNamesDevice(a: DevicePolicy, b: DevicePolicy)
    requires IdValid(a.id) && IdValid(b.id) && Token(a) == Token(b)
    ensures a.id == b.id
  {
    assert forall k :: 0 <= k < |a.id| ==> Token(a)[k] == a.id[k] && IdChar(a.id[k]);
    assert forall k :: 0 <= k < |b.id| ==> Token(b)[k] == b.id[k] && IdChar(b.id[k]);
    assert Token(a)[|a.id|] == ':' && Token(b)[|b.id|] == ':';
    assert |a.id| == |b.id|;
    assert Token(a)[..|a.id|] == a.id && Token(b)[..|b.id|] == b.id;
  }

  /**
   * What the server owes: the snapshot was generated, at a server instant
   * rounded down to `generated` seconds, no earlier than the local instant
   * `start`.  `offset` is the constant distance from local to server time.
   */
  predicate GeneratedAfter(p: Policy, start: int, offset: int) {
    start + offset < (p.generated + 1) * SECOND
  }

  /**
   * Every instant before a device's deadline is, on the server's clock,
   * strictly before the lease's expiry and before the device's own expiry.
   */
  lemma {:induction false} DeadlineIsSafe(start: int, p: Policy, u: UserPolicy, d: DevicePolicy, offset: int, now: int)
    requires GeneratedAfter(p, start, offset)
    requires now <= DeviceDeadline(start, p, u, d)
    ensures now + offset < u.lease.expires * SECOND
    ensures d.expires != 0 ==> now + offset < d.expires * SECOND
  {
    var ttl := Ttl(p, u, d);
    assert now + offset <= start + (ttl - 1) * SECOND + offset < (ttl + p.generated) * SECOND;
  }

  const MAX_START: int := MAX_INTEGER * 1000 - 60 * SECOND
  const INT64_MAX: int := 9223372036854775807

  /** Every quantity in the deadline computation is a 64-bit integer. */
  lemma {:induction false} DeadlineFits(start: int, p: Policy, i: int, j: int)
    requires PolicyValid(p) && InPolicy(p, i, j)
    requires 0 < start <= MAX_START
    ensures var u, d := p.users[i], DeviceAt(p, i, j);
            && 1 <= Ttl(p, u, d) <= 60
            && 0 <= (Ttl(p, u, d) - 1) * SECOND <= INT64_MAX
            && start <= DeviceDeadline(start, p, u, d) <= INT64_MAX
            && start <= Deadline(start, p.expires, p.generated) <= INT64_MAX
  {
    assert Before(p, i, j, |p.users|, 0);
    assert UserOk(p, p.users[i]) && DeviceOk(p, DeviceAt(p, i, j));
  }
}
