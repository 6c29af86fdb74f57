// Second factors, login challenges and sessions: the tables, and one function
// for each transaction (c/src/auth_security.c, migrations/015_auth_security.sql).
//
// Encryption is lossless and hashes do not collide, so a stored secret, code or
// token is its own identity.  The code a secret gives at a time step is the
// function `totp`.  A transaction reads the clock once.  Rows are in insertion
// order, which is the order of their row ids.
module MfaState {
  import opened Common

  const SESSION_SECONDS: int := 72 * 60 * 60
  const CHALLENGE_SECONDS: int := 300
  const PENDING_SECONDS: int := 600
  const LOCK_SECONDS: int := 300
  const DAY: int := 86400
  const MAX_SESSIONS: nat := 100
  const KEPT_CHALLENGES: nat := 9

  type User = string
  type Secret = nat
  type Code = string
  type Totp = (Secret, nat) -> Code

  datatype Mfa = Mfa(
    secret: Option<Secret>, pending: Option<Secret>, pendingUntil: int, lastStep: int, failed: int, lockedUntil: int)

  datatype Challenge = Challenge(hash: string, binding: Option<string>, user: User, method': string, expires: int)

  datatype Session = Session(
    token: string, user: User, method': string, client: string, created: int, expires: int, revoked: Option<int>)

  /** `recovery` says of each stored recovery code whether it was used. */
  datatype Db = Db(
    users: map<User, string>, mfa: map<User, Mfa>, recovery: map<(User, Code), bool>,
    challenges: seq<Challenge>, sessions: seq<Session>)

  const NEW_ROW: Mfa := Mfa(None, None, 0, -1, 0, 0)

  predicate TokenOk(s: string, max: nat) {
    1 <= |s| <= max && forall k :: 0 <= k < |s| ==> 33 <= s[k] as int <= 126
  }

  /** A client's label: short, and without control characters. */
  predicate LabelOk(s: string) { |s| <= 128 && forall k :: 0 <= k < |s| ==> s[k] as int >= 32 && s[k] as int != 127 }

  // ---- checking a code ----

  datatype Outcome = Unavailable | LockedOut | Rejected | ByTotp(secret: Secret, step: nat) | ByRecovery(code: Code)

  predicate Accepted(o: Outcome) { o.ByTotp? || o.ByRecovery? }

  predicate StepMatches(totp: Totp, secret: Secret, lastStep: int, pending: bool, code: Code, step: int) {
    0 <= step && (pending || step > lastStep) && totp(secret, step) == code
  }

  /** The latest of the three steps around now whose code this is. */
  function Matched(totp: Totp, secret: Secret, lastStep: int, pending: bool, code: Code, now: nat): Option<nat> {
    if |code| != 6 then None
    else if StepMatches(totp, secret, lastStep, pending, code, now / 30 + 1) then Some(now / 30 + 1)
    else if StepMatches(totp, secret, lastStep, pending, code, now / 30) then Some(now / 30)
    else if StepMatches(totp, secret, lastStep, pending, code, now / 30 - 1) then Some(now / 30 - 1)
    else None
  }

  /** Five rejections in a row lock the row for a while. */
  function Failed(m: Mfa, now: int): Mfa {
    if m.failed >= 4 then m.(failed := 0, lockedUntil := now + LOCK_SECONDS)
    else m.(failed := m.failed + 1, lockedUntil := 0)
  }

  function Verify(db: Db, totp: Totp, user: User, code: Code, pending: bool, now: nat): (Db, Outcome) {
    if !TokenOk(user, 256) || user !in db.mfa then (db, Unavailable)
    else
      var m := db.mfa[user];
      var slot := if pending then m.pending else m.secret;
      if slot.None? || (pending && m.pendingUntil <= now) then (db, Unavailable)
      else if m.lockedUntil > now then (db, LockedOut)
      else
        var rejected := db.(mfa := db.mfa[user := Failed(m, now)]);
        if !TokenOk(code, 128) then (rejected, Rejected)
        else
          match Matched(totp, slot.value, m.lastStep, pending, code, now)
          case Some(step) =>
            var last := if pending then m.lastStep else step;
            (db.(mfa := db.mfa[user := m.(lastStep := last, failed := 0, lockedUntil := 0)]),
             ByTotp(slot.value, step))
          case None =>
            if !pending && (user, code) in db.recovery && !db.recovery[(user, code)] then
              (db.(mfa := db.mfa[user := m.(failed := 0, lockedUntil := 0)],
                    recovery := db.recovery[(user, code) := true]),
               ByRecovery(code))
            else (rejected, Rejected)
  }

  // ---- sessions ----

  predicate Kept(s: Session, keep: Option<string>) { keep == Some(s.token) }

  function Revoke(ss: seq<Session>, user: User, keep: Option<string>, now: int): (r: seq<Session>)
    ensures |r| == |ss|
    ensures forall i :: 0 <= i < |ss| ==>
              r[i] == if ss[i].user == user && ss[i].revoked.None? && !Kept(ss[i], keep)
                      then ss[i].(revoked := Some(now)) else ss[i]
  {
    seq(|ss|, i requires 0 <= i < |ss| =>
          if ss[i].user == user && ss[i].revoked.None? && !Kept(ss[i], keep)
          then ss[i].(revoked := Some(now)) else ss[i])
  }

  /** Session j comes before session i in the listing, newest first. */
  predicate Newer(ss: seq<Session>, user: User, j: int, i: int) {
    && 0 <= i < |ss| && 0 <= j < |ss| && ss[i].user == user && ss[j].user == user
    && (ss[j].created > ss[i].created || (ss[j].created == ss[i].created && j > i))
  }

  function NewerThan(ss: seq<Session>, user: User, i: int): set<int> {
    set j | 0 <= j < |ss| && Newer(ss, user, j, i)
  }

  predicate Survives(ss: seq<Session>, user: User, i: int, now: int)
    requires 0 <= i < |ss|
  {
    ss[i].expires >= now - DAY && (ss[i].user == user ==> |NewerThan(ss, user, i)| < MAX_SESSIONS)
  }

  function PruneFrom(ss: seq<Session>, user: User, now: int, i: nat): seq<Session>
    requires i <= |ss|
    decreases |ss| - i
  {
    if i == |ss| then []
    else (if Survives(ss, user, i, now) then [ss[i]] else []) + PruneFrom(ss, user, now, i + 1)
  }

  function Prune(ss: seq<Session>, user: User, now: int): seq<Session> { PruneFrom(ss, user, now, 0) }

  predicate Enabled(db: Db, user: User) { user in db.mfa && db.mfa[user].secret.Some? }

  /** A new session; refused while a second factor is enabled and was not completed. */
  function Issue(db: Db, user: User, method': string, client: string, token: string, completed: bool, now: int)
    : Option<Db>
  {
    if !TokenOk(method', 32) || !LabelOk(client) || user !in db.users || (Enabled(db, user) && !completed) then None
    else
      var s := Session(token, user, method', client, now, now + SESSION_SECONDS, None);
      Some(db.(sessions := Prune(db.sessions + [s], user, now)))
  }

  // ---- challenges ----

  function WithoutUser(cs: seq<Challenge>, user: User): seq<Challenge> {
    if |cs| == 0 then []
    else WithoutUser(cs[..|cs| - 1], user) + if cs[|cs| - 1].user == user then [] else [cs[|cs| - 1]]
  }

  function WithoutHash(cs: seq<Challenge>, hash: string): seq<Challenge> {
    if |cs| == 0 then []
    else WithoutHash(cs[..|cs| - 1], hash) + if cs[|cs| - 1].hash == hash then [] else [cs[|cs| - 1]]
  }

  /** Drops expired rows, and all but the last n of one user. */
  function Recent(cs: seq<Challenge>, user: User, n: nat, now: int): seq<Challenge> {
    if |cs| == 0 then []
    else
      var c, rest := cs[|cs| - 1], cs[..|cs| - 1];
      var m := if c.user == user && n > 0 then n - 1 else n;
      Recent(rest, user, m, now) + if c.expires <= now || (c.user == user && n == 0) then [] else [c]
  }

  predicate BindingOk(binding: Option<string>) { binding.Some? ==> TokenOk(binding.value, 256) }

  function Ask(db: Db, user: User, method': string, hash: string, binding: Option<string>, now: int): Option<Db> {
    if !TokenOk(method', 32) || !BindingOk(binding) || !Enabled(db, user) then None
    else Some(db.(challenges := Recent(db.challenges, user, KEPT_CHALLENGES, now)
                                + [Challenge(hash, binding, user, method', now + CHALLENGE_SECONDS)]))
  }

  function FindChallenge(cs: seq<Challenge>, hash: string): Option<Challenge> {
    if |cs| == 0 then None
    else if cs[|cs| - 1].hash == hash then Some(cs[|cs| - 1])
    else FindChallenge(cs[..|cs| - 1], hash)
  }

  /** The row a login may be completed with: present, not expired, and bound as presented. */
  function Usable(db: Db, hash: string, binding: Option<string>, now: int): Option<Challenge> {
    var c := FindChallenge(db.challenges, hash);
    if TokenOk(hash, 128) && BindingOk(binding) && c.Some? && c.value.expires > now && c.value.binding == binding then c
    else None
  }

  /** A rejected code is committed; a failure after an accepted one rolls everything back. */
  function Complete(db: Db, totp: Totp, hash: string, binding: Option<string>, code: Code, client: string,
                    token: string, now: nat)
    : (Db, Outcome, bool)
  {
    var c := Usable(db, hash, binding, now);
    if !LabelOk(client) || c.None? then (db, Unavailable, false)
    else
      var user, (v, o) := c.value.user, Verify(db, totp, c.value.user, code, false, now);
      if !Accepted(o) then (v, o, false)
      else
        var u := v.(challenges := WithoutHash(v.challenges, hash));
        match Issue(u, user, c.value.method' + "+mfa", client, token, true, now)
        case None => (db, Unavailable, false)
        case Some(d) => (d, o, true)
  }

  // ---- enrolment ----

  function BeginMfa(db: Db, user: User, secret: Secret, now: int): Db {
    if !TokenOk(user, 256) || user !in db.users then db
    else
      var m := if user in db.mfa then db.mfa[user] else NEW_ROW;
      db.(mfa := db.mfa[user := m.(pending := Some(secret), pendingUntil := now + PENDING_SECONDS)])
  }

  function Fresh(user: User, codes: seq<Code>): map<(User, Code), bool> {
    map c | c in codes :: (user, c) := false
  }

  function NoCodes(recovery: map<(User, Code), bool>, user: User): map<(User, Code), bool> {
    map k | k in recovery && k.0 != user :: recovery[k]
  }

  function Confirm(db: Db, totp: Totp, user: User, code: Code, keep: Option<string>, codes: seq<Code>, now: nat)
    : (Db, Outcome)
  {
    var (v, o) := Verify(db, totp, user, code, true, now);
    if !o.ByTotp? || user !in v.mfa then (v, o)
    else
      var m := v.mfa[user];
      (v.(mfa := v.mfa[user := m.(secret := m.pending, pending := None, pendingUntil := 0, lastStep := o.step)],
          recovery := NoCodes(v.recovery, user) + Fresh(user, codes),
          sessions := Revoke(v.sessions, user, keep, now), challenges := WithoutUser(v.challenges, user)), o)
  }

  function Disable(db: Db, user: User, keep: Option<string>, now: int): Db {
    if user !in db.users then db
    else db.(mfa := db.mfa - {user}, recovery := NoCodes(db.recovery, user),
             sessions := Revoke(db.sessions, user, keep, now), challenges := WithoutUser(db.challenges, user))
  }

  function Admins(users: map<User, string>): set<User> { set u | u in users && users[u] == "admin" }

  predicate RoleAllowed(db: Db, user: User, role: string) {
    && role in {"admin", "operator", "viewer"} && user in db.users
    && !(db.users[user] == "admin" && role != "admin" && |Admins(db.users)| <= 1)
  }

  function ChangeRole(db: Db, user: User, role: string, now: int): Db {
    if !RoleAllowed(db, user, role) then db
    else db.(users := db.users[user := role], sessions := Revoke(db.sessions, user, None, now),
             challenges := WithoutUser(db.challenges, user))
  }

  // ---- what single transactions leave ----

  predicate LoggedOut(db: Db, user: User, keep: Option<string>) {
    && (forall i :: 0 <= i < |db.challenges| ==> db.challenges[i].user != user)
    && (forall i :: 0 <= i < |db.sessions| && db.sessions[i].user == user && db.sessions[i].revoked.None? ==>
          Kept(db.sessions[i], keep))
  }

  lemma {:induction false} NoneOfUser(cs: seq<Challenge>, user: User)
    ensures forall i :: 0 <= i < |WithoutUser(cs, user)| ==>
            WithoutUser(cs, user)[i].user != user && WithoutUser(cs, user)[i] in cs
  {
    if |cs| == 0 {
    } else {
      NoneOfUser(cs[..|cs| - 1], user);
    }
  }

  /** A confirmed enrolment, a disabled factor and a new role end every other login of the user. */
  lemma {:induction false} ChangesLogOut(db: Db, totp: Totp, user: User, code: Code, keep: Option<string>,
                                         codes: seq<Code>, role: string, now: nat)
    ensures Confirm(db, totp, user, code, keep, codes, now).1.ByTotp? ==>
              LoggedOut(Confirm(db, totp, user, code, keep, codes, now).0, user, keep)
              && Enabled(Confirm(db, totp, user, code, keep, codes, now).0, user)
    ensures user in db.users ==>
              LoggedOut(Disable(db, user, keep, now), user, keep) && !Enabled(Disable(db, user, keep, now), user)
    ensures RoleAllowed(db, user, role) ==> LoggedOut(ChangeRole(db, user, role, now), user, None)
  {
    hide WithoutUser, Matched, TokenOk, RoleAllowed;
    var (v, o) := Verify(db, totp, user, code, true, now);
    NoneOfUser(v.challenges, user);
    NoneOfUser(db.challenges, user);
  }

  lemma {:induction false} AlwaysAnAdmin(db: Db, user: User, role: string, now: int)
    requires Admins(db.users) != {}
    ensures Admins(ChangeRole(db, user, role, now).users) != {}
  {
    if RoleAllowed(db, user, role) {
      var r := ChangeRole(db, user, role, now).users;
      if role == "admin" {
        assert user in Admins(r);
      } else if user in Admins(db.users) {
        var others := Admins(db.users) - {user};
        assert |others| >= 1;
        var x :| x in others;
        assert x in Admins(r);
      } else {
        var x :| x in Admins(db.users);
        assert x in Admins(r);
      }
    }
  }

  // ---- challenges stay few ----

  function CountChallenges(cs: seq<Challenge>, user: User): nat {
    if |cs| == 0 then 0 else CountChallenges(cs[..|cs| - 1], user) + if cs[|cs| - 1].user == user then 1 else 0
  }

  lemma {:induction false} RecentAreFew(cs: seq<Challenge>, user: User, n: nat, now: int)
    ensures CountChallenges(Recent(cs, user, n, now), user) <= n
  {
    if |cs| == 0 {
    } else {
      var c, rest := cs[|cs| - 1], cs[..|cs| - 1];
      var m := if c.user == user && n > 0 then n - 1 else n;
      RecentAreFew(rest, user, m, now);
      var r := Recent(rest, user, m, now);
      CountSnoc(r, c, user);
      assert r + [] == r;
    }
  }

  lemma {:induction false} RecentAreFewer(cs: seq<Challenge>, user: User, n: nat, now: int, other: User)
    ensures CountChallenges(Recent(cs, user, n, now), other) <= CountChallenges(cs, other)
  {
    if |cs| == 0 {
    } else {
      var c, rest := cs[|cs| - 1], cs[..|cs| - 1];
      var m := if c.user == user && n > 0 then n - 1 else n;
      RecentAreFewer(rest, user, m, now, other);
      var r := Recent(rest, user, m, now);
      CountSnoc(r, c, other);
      assert r + [] == r;
    }
  }

  lemma {:induction false} CountSnoc(cs: seq<Challenge>, c: Challenge, user: User)
    ensures CountChallenges(cs + [c], user) == CountChallenges(cs, user) + if c.user == user then 1 else 0
  {
    assert (cs + [c])[..|cs|] == cs;
  }

  lemma {:induction false} FewerWithoutUser(cs: seq<Challenge>, user: User, other: User)
    ensures CountChallenges(WithoutUser(cs, user), other) <= CountChallenges(cs, other)
  {
    if |cs| == 0 {
    } else {
      var n := |cs| - 1;
      FewerWithoutUser(cs[..n], user, other);
      var a := WithoutUser(cs[..n], user);
      CountSnoc(a, cs[n], other);
      assert a + [] == a;
    }
  }

  lemma {:induction false} FewerWithoutHash(cs: seq<Challenge>, hash: string, other: User)
    ensures CountChallenges(WithoutHash(cs, hash), other) <= CountChallenges(cs, other)
  {
    if |cs| == 0 {
    } else {
      var n := |cs| - 1;
      FewerWithoutHash(cs[..n], hash, other);
      var a := WithoutHash(cs[..n], hash);
      CountSnoc(a, cs[n], other);
      assert a + [] == a;
    }
  }

  // ---- sessions stay few ----

  lemma {:induction false} NewerIsTransitive(ss: seq<Session>, user: User, i: int, j: int)
    requires Newer(ss, user, j, i)
    ensures NewerThan(ss, user, j) < NewerThan(ss, user, i) && |NewerThan(ss, user, j)| < |NewerThan(ss, user, i)|
  {
    var a, b := NewerThan(ss, user, j), NewerThan(ss, user, i);
    assert j in b && j !in a;
    assert a <= b - {j};
    SubsetSize(a, b - {j});
  }

  lemma {:induction false} Element<T>(s: set<T>) returns (x: T)
    requires |s| > 0
    ensures x in s
  {
    x :| x in s;
  }

  function Top(ss: seq<Session>, user: User): set<int> {
    set i | 0 <= i < |ss| && ss[i].user == user && |NewerThan(ss, user, i)| < MAX_SESSIONS
  }

  /** Ranks are distinct, so at most a hundred sessions have one below a hundred. */
  lemma {:induction false} FewBelow(ss: seq<Session>, user: User, some: set<int>, bound: nat)
    requires forall i :: i in some ==> 0 <= i < |ss| && ss[i].user == user && |NewerThan(ss, user, i)| < bound
    ensures |some| <= bound
    decreases bound
  {
    if |some| == 0 {
    } else {
      var last := Least(ss, user, some);
      forall i | i in some - {last}
        ensures |NewerThan(ss, user, i)| < bound - 1
      {
        NewerIsTransitive(ss, user, last, i);
      }
      FewBelow(ss, user, some - {last}, bound - 1);
    }
  }

  lemma {:induction false} Least(ss: seq<Session>, user: User, some: set<int>) returns (last: int)
    requires |some| > 0 && forall i :: i in some ==> 0 <= i < |ss| && ss[i].user == user
    ensures last in some && forall i :: i in some && i != last ==> Newer(ss, user, i, last)
  {
    var x := Element(some);
    var rest := some - {x};
    if |rest| == 0 {
      last := x;
      assert some == rest + {x};
    } else {
      var y := Least(ss, user, rest);
      last := if Newer(ss, user, x, y) then y else x;
      forall i | i in some && i != last
        ensures Newer(ss, user, i, last)
      {
        assert i == x || i in rest;
        if last == x && i != y {
          assert Newer(ss, user, i, y);
        }
      }
    }
  }

  function CountSessions(ss: seq<Session>, user: User): nat {
    if |ss| == 0 then 0 else (if ss[0].user == user then 1 else 0) + CountSessions(ss[1..], user)
  }

  function TopFrom(ss: seq<Session>, user: User, i: int): set<int> { set j | j in Top(ss, user) && j >= i }

  lemma {:induction false} PrunedCount(ss: seq<Session>, user: User, now: int, i: nat)
    requires i <= |ss|
    ensures CountSessions(PruneFrom(ss, user, now, i), user) <= |TopFrom(ss, user, i)|
    decreases |ss| - i
  {
    hide Survives, Top;
    if i >= |ss| {
    } else {
      PrunedCount(ss, user, now, i + 1);
      var rest, pruned := PruneFrom(ss, user, now, i + 1), PruneFrom(ss, user, now, i);
      assert [] + rest == rest && ([ss[i]] + rest)[1..] == rest;
      SubsetSize(TopFrom(ss, user, i + 1), TopFrom(ss, user, i));
      if Survives(ss, user, i, now) && ss[i].user == user {
        assert i in Top(ss, user) by { SurvivorIsTop(ss, user, i, now); }
        assert TopFrom(ss, user, i) == TopFrom(ss, user, i + 1) + {i};
      }
    }
  }

  lemma {:induction false} SurvivorIsTop(ss: seq<Session>, user: User, i: nat, now: int)
    requires i < |ss| && Survives(ss, user, i, now) && ss[i].user == user
    ensures i in Top(ss, user)
  {
  }

  /** After a session is issued its user has at most a hundred. */
  lemma {:induction false} SessionsAreFew(ss: seq<Session>, user: User, now: int)
    ensures CountSessions(Prune(ss, user, now), user) <= MAX_SESSIONS
  {
    hide NewerThan;
    PrunedCount(ss, user, now, 0);
    FewBelow(ss, user, Top(ss, user), MAX_SESSIONS);
    SubsetSize(TopFrom(ss, user, 0), Top(ss, user));
  }

  lemma {:induction false} OthersKept(ss: seq<Session>, user: User, now: int, i: nat, other: User)
    requires i <= |ss|
    ensures CountSessions(PruneFrom(ss, user, now, i), other) <= CountSessions(ss[i..], other)
    decreases |ss| - i
  {
    hide Survives;
    if i >= |ss| {
    } else {
      OthersKept(ss, user, now, i + 1, other);
      var rest := PruneFrom(ss, user, now, i + 1);
      assert [] + rest == rest && ([ss[i]] + rest)[1..] == rest;
      assert ss[i..][1..] == ss[i + 1..];
    }
  }

  lemma {:induction false} CountSessionsSnoc(ss: seq<Session>, s: Session, user: User)
    ensures CountSessions(ss + [s], user) == CountSessions(ss, user) + if s.user == user then 1 else 0
  {
    if |ss| > 0 {
      CountSessionsSnoc(ss[1..], s, user);
      assert (ss + [s])[1..] == ss[1..] + [s];
    } else {
      assert ss + [s] == [s] && [s][1..] == [];
    }
  }

  ghost predicate KeptFrom(ss: seq<Session>, user: User, now: int, i: nat, s: Session) {
    exists j :: i <= j < |ss| && ss[j] == s && Survives(ss, user, j, now)
  }

  lemma {:induction false} PrunedAre(ss: seq<Session>, user: User, now: int, i: nat, s: Session)
    requires i <= |ss|
    ensures s in PruneFrom(ss, user, now, i) <==> KeptFrom(ss, user, now, i, s)
    decreases |ss| - i
  {
    hide Survives, KeptFrom;
    if i >= |ss| {
    } else {
      PrunedAre(ss, user, now, i + 1, s);
    }
    KeptStep(ss, user, now, i, s);
  }

  lemma {:induction false} KeptStep(ss: seq<Session>, user: User, now: int, i: nat, s: Session)
    requires i <= |ss|
    ensures KeptFrom(ss, user, now, i, s) <==>
            i < |ss| && ((ss[i] == s && Survives(ss, user, i, now)) || KeptFrom(ss, user, now, i + 1, s))
  {
    hide Survives;
  }

  /**
   * A session that was just issued is kept if and only if fewer than a hundred
   * of its user's sessions bear a later time: always, while the clock does not
   * go back.
   */
  lemma {:induction false} IssuedIsKept(db: Db, user: User, method': string, client: string, token: string,
                                        completed: bool, now: int)
    requires Issue(db, user, method', client, token, completed, now).Some?
    requires forall i :: 0 <= i < |db.sessions| ==> db.sessions[i].token != token
    ensures var s := Session(token, user, method', client, now, now + SESSION_SECONDS, None);
            s in Issue(db, user, method', client, token, completed, now).value.sessions <==>
            |set j | 0 <= j < |db.sessions| && db.sessions[j].user == user
                && db.sessions[j].created > now| < MAX_SESSIONS
  {
    var s := Session(token, user, method', client, now, now + SESSION_SECONDS, None);
    var all, n := db.sessions + [s], |db.sessions|;
    PrunedAre(all, user, now, 0, s);
    assert KeptFrom(all, user, now, 0, s) <==> exists j :: 0 <= j < |all| && all[j] == s && Survives(all, user, j, now);
    assert all[n] == s;
    assert NewerThan(all, user, n) ==
           set j | 0 <= j < |db.sessions| && db.sessions[j].user == user && db.sessions[j].created > now;
    assert forall j :: 0 <= j < |all| && all[j] == s ==> j == n;
  }

  lemma {:induction false} NothingPruned(ss: seq<Session>, user: User, now: int, i: nat)
    requires i <= |ss| && forall j :: 0 <= j < |ss| ==> Survives(ss, user, j, now)
    ensures PruneFrom(ss, user, now, i) == ss[i..]
    decreases |ss| - i
  {
    hide Survives;
    if i == |ss| {
    } else {
      NothingPruned(ss, user, now, i + 1);
      assert ss[i..] == [ss[i]] + ss[i + 1..];
    }
  }

  /** The numbers below n. */
  function Below(n: nat): (r: set<int>)
    ensures |r| == n && forall j :: j in r <==> 0 <= j < n
  {
    if n == 0 then {} else Below(n - 1) + {n - 1}
  }

  /** Up to a hundred sessions that have not expired are all kept. */
  lemma {:induction false} HundredAreKept(ss: seq<Session>, user: User, now: int)
    requires |ss| <= MAX_SESSIONS && forall j :: 0 <= j < |ss| ==> ss[j].expires >= now - DAY
    ensures Prune(ss, user, now) == ss
  {
    forall i | 0 <= i < |ss|
      ensures Survives(ss, user, i, now)
    {
      assert i in Below(|ss|) && i !in NewerThan(ss, user, i);
      SubsetSize(NewerThan(ss, user, i), Below(|ss|) - {i});
    }
    NothingPruned(ss, user, now, 0);
  }
}
