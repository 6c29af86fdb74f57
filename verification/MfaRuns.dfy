// What second factors, challenges and sessions promise over every run of
// committed transactions.
module MfaRuns {
  import opened Common
  import opened MfaState

  /** A session that was issued, and the challenge it used up. */
  datatype Issued = Issued(user: User, challenge: Option<string>)

  /** The tables, what was accepted and issued so far, and the random values drawn so far. */
  datatype World = World(
    db: Db, totps: seq<(Secret, nat)>, recoveries: seq<(User, Code)>, issued: seq<Issued>,
    secrets: set<Secret>, codes: set<Code>, hashes: set<string>)

  datatype Step =
    | Begin(user: User, secret: Secret, now: nat)
    | ConfirmStep(user: User, code: Code, keep: Option<string>, codes: seq<Code>, now: nat)
    | Check(user: User, code: Code, now: nat)
    | DisableStep(user: User, keep: Option<string>, now: nat)
    | AskStep(user: User, method': string, hash: string, binding: Option<string>, now: nat)
    | CompleteStep(hash: string, binding: Option<string>, code: Code, client: string, token: string, now: nat)
    | Login(user: User, method': string, client: string, token: string, now: nat)
    | RevokeStep(user: User, keep: Option<string>, now: nat)
    | RoleStep(user: User, role: string, now: nat)

  function NewWorld(users: map<User, string>): World {
    World(Db(users, map[], map[], [], []), [], [], [], {}, {}, {})
  }

  function Logged(w: World, db: Db, user: User, o: Outcome): World {
    w.(db := db,
       totps := if o.ByTotp? then w.totps + [(o.secret, o.step)] else w.totps,
       recoveries := if o.ByRecovery? then w.recoveries + [(user, o.code)] else w.recoveries)
  }

  function UserOf(w: World, s: Step): User {
    match s
    case CompleteStep(hash, _, _, _, _, _) =>
      var c := FindChallenge(w.db.challenges, hash); if c.Some? then c.value.user else ""
    case _ => s.user
  }

  /** A secret, a recovery code or a challenge is drawn once. */
  predicate FreshDraw(w: World, s: Step) {
    match s
    case Begin(_, secret, _) => secret !in w.secrets
    case ConfirmStep(_, _, _, codes, _) => forall c :: c in codes ==> c !in w.codes
    case AskStep(_, _, hash, _, _) => hash !in w.hashes
    case _ => true
  }

  function Next(w: World, totp: Totp, s: Step): World {
    if !FreshDraw(w, s) then w
    else
      match s
      case Begin(user, secret, now) => w.(db := BeginMfa(w.db, user, secret, now), secrets := w.secrets + {secret})
      case ConfirmStep(user, code, keep, codes, now) =>
        var (db, o) := Confirm(w.db, totp, user, code, keep, codes, now);
        Logged(w, db, user, o).(codes := w.codes + set c | c in codes)
      case Check(user, code, now) =>
        var (db, o) := Verify(w.db, totp, user, code, false, now);
        Logged(w, db, user, o)
      case DisableStep(user, keep, now) => w.(db := Disable(w.db, user, keep, now))
      case AskStep(user, method', hash, binding, now) =>
        var db := Ask(w.db, user, method', hash, binding, now);
        if db.None? then w else w.(db := db.value, hashes := w.hashes + {hash})
      case CompleteStep(hash, binding, code, client, token, now) =>
        var (db, o, done) := Complete(w.db, totp, hash, binding, code, client, token, now);
        var user := UserOf(w, s);
        var w' := Logged(w, db, user, o);
        if done then w'.(issued := w.issued + [Issued(user, Some(hash))]) else w'
      case Login(user, method', client, token, now) =>
        var db := Issue(w.db, user, method', client, token, false, now);
        if db.None? then w else w.(db := db.value, issued := w.issued + [Issued(user, None)])
      case RevokeStep(user, keep, now) =>
        w.(db := w.db.(sessions := Revoke(w.db.sessions, user, keep, now),
              challenges := WithoutUser(w.db.challenges, user)))
      case RoleStep(user, role, now) => w.(db := ChangeRole(w.db, user, role, now))
  }

  // ---- one-time codes ----

  /** Every stored secret was drawn, and is stored in one place only. */
  predicate SecretsApart(w: World) {
    && (forall u :: u in w.db.mfa ==>
          && (w.db.mfa[u].secret.Some? ==> w.db.mfa[u].secret.value in w.secrets)
          && (w.db.mfa[u].pending.Some? ==> w.db.mfa[u].pending.value in w.secrets))
    && (forall u, v :: u in w.db.mfa && v in w.db.mfa ==>
          && (w.db.mfa[u].secret.Some? && w.db.mfa[u].secret == w.db.mfa[v].secret ==> u == v)
          && (w.db.mfa[u].pending.Some? && w.db.mfa[u].pending == w.db.mfa[v].pending ==> u == v)
          && (w.db.mfa[u].secret.Some? ==> w.db.mfa[u].secret != w.db.mfa[v].pending))
  }

  /** An accepted step of a secret still in use is not after the last step, and no pending secret was used. */
  predicate StepsSpent(w: World) {
    forall k :: 0 <= k < |w.totps| ==>
      && w.totps[k].0 in w.secrets
      && forall u :: u in w.db.mfa ==>
           && (w.db.mfa[u].secret == Some(w.totps[k].0) ==> w.totps[k].1 <= w.db.mfa[u].lastStep)
           && w.db.mfa[u].pending != Some(w.totps[k].0)
  }

  predicate NoTotpTwice(w: World) { forall i, j :: 0 <= i < j < |w.totps| ==> w.totps[i] != w.totps[j] }

  predicate CodesSpent(w: World) {
    && (forall k :: k in w.db.recovery ==> k.1 in w.codes)
    && (forall k :: 0 <= k < |w.recoveries| ==>
          w.recoveries[k].1 in w.codes && (w.recoveries[k] in w.db.recovery ==> w.db.recovery[w.recoveries[k]]))
  }

  predicate NoRecoveryTwice(w: World) { forall i,
                            j :: 0 <= i < j < |w.recoveries| ==> w.recoveries[i] != w.recoveries[j] }

  predicate OneTime(w: World) {
    SecretsApart(w) && StepsSpent(w) && NoTotpTwice(w) && CodesSpent(w) && NoRecoveryTwice(w)
  }

  /** What a check can do, by its outcome. */
  ghost predicate VerifyDid(db: Db, user: User, code: Code, pending: bool, now: nat, d: Db, o: Outcome) {
    if o.Unavailable? || o.LockedOut? then d == db
    else
      && user in db.mfa && db.mfa[user].lockedUntil <= now
      && var m := db.mfa[user];
         match o
         case Rejected => d == db.(mfa := db.mfa[user := Failed(m, now)])
         case ByTotp(secret, step) =>
           && (if pending then m.pending else m.secret) == Some(secret) && (pending || step > m.lastStep)
           && var last := if pending then m.lastStep else step;
           d == db.(mfa := db.mfa[user := m.(lastStep := last, failed := 0, lockedUntil := 0)])
         case ByRecovery(c) =>
           && !pending && c == code && (user, code) in db.recovery && !db.recovery[(user, code)] && m.secret.Some?
           && d == db.(mfa := db.mfa[user := m.(failed := 0, lockedUntil := 0)],
                 recovery := db.recovery[(user, code) := true])
         case _ => true
  }

  lemma {:induction false} VerifyCases(db: Db, totp: Totp, user: User, code: Code, pending: bool, now: nat)
    ensures var (d, o) := Verify(db, totp, user, code, pending, now); VerifyDid(db, user, code, pending, now, d, o)
  {
    hide TokenOk;
  }

  /** Only counters and locks changed. */
  predicate SameSlots(a: map<User, Mfa>, b: map<User, Mfa>) {
    && a.Keys == b.Keys
    && forall u :: u in a ==>
        b[u].secret == a[u].secret && b[u].pending == a[u].pending && b[u].lastStep == a[u].lastStep
  }

  lemma {:induction false} CountersApart(w: World, w': World)
    requires OneTime(w) && SameSlots(w.db.mfa, w'.db.mfa) && w'.db.recovery == w.db.recovery
    requires w'.totps == w.totps && w'.recoveries == w.recoveries && w'.secrets == w.secrets && w'.codes == w.codes
    ensures OneTime(w')
  {
  }

  lemma {:induction false} TotpApart(w: World, w': World, user: User, step: nat)
    requires OneTime(w) && user in w.db.mfa && w.db.mfa[user].secret.Some? && step > w.db.mfa[user].lastStep
    requires w'.db.mfa == w.db.mfa[user := w.db.mfa[user].(lastStep := step, failed := 0, lockedUntil := 0)]
    requires w'.totps == w.totps + [(w.db.mfa[user].secret.value, step)]
    requires w'.db.recovery == w.db.recovery && w'.recoveries == w.recoveries && w'.secrets == w.secrets
             && w'.codes == w.codes
    ensures OneTime(w')
  {
    var secret := w.db.mfa[user].secret.value;
    assert SecretsApart(w');
    forall k | 0 <= k < |w.totps|
      ensures w.totps[k] != (secret, step)
    {
      assert w.db.mfa[user].secret == Some(w.totps[k].0) ==> w.totps[k].1 <= w.db.mfa[user].lastStep;
    }
    assert StepsSpent(w');
  }

  lemma {:induction false} RecoveryApart(w: World, w': World, user: User, code: Code)
    requires OneTime(w) && (user, code) in w.db.recovery && !w.db.recovery[(user, code)]
    requires SameSlots(w.db.mfa, w'.db.mfa) && w'.db.recovery == w.db.recovery[(user, code) := true]
    requires w'.recoveries == w.recoveries + [(user, code)]
    requires w'.totps == w.totps && w'.secrets == w.secrets && w'.codes == w.codes
    ensures OneTime(w')
  {
    assert SecretsApart(w') && StepsSpent(w');
    assert forall k :: 0 <= k < |w.recoveries| ==> w.recoveries[k] != (user, code);
  }

  lemma {:induction false} VerifyApart(w: World, totp: Totp, user: User, code: Code, now: nat, w': World)
    requires OneTime(w)
    requires var (db, o) := Verify(w.db, totp, user, code, false, now);
             && w'.db.mfa == db.mfa && w'.db.recovery == db.recovery
             && w'.totps == Logged(w, db, user, o).totps && w'.recoveries == Logged(w, db, user, o).recoveries
             && w'.secrets == w.secrets && w'.codes == w.codes
    ensures OneTime(w')
  {
    hide Verify, OneTime;
    var (db, o) := Verify(w.db, totp, user, code, false, now);
    VerifyCases(w.db, totp, user, code, false, now);
    match o
    case ByTotp(_, step) => TotpApart(w, w', user, step);
    case ByRecovery(_) => RecoveryApart(w, w', user, code);
    case _ => CountersApart(w, w');
  }

  /** The pending secret becomes the secret; its first accepted step is its last step. */
  lemma {:induction false} EnrolApart(w: World, w': World, user: User, step: nat, codes: seq<Code>)
    requires OneTime(w) && user in w.db.mfa && w.db.mfa[user].pending.Some? && forall c :: c in codes ==> c !in w.codes
    requires w'.db.mfa == w.db.mfa[user := Mfa(w.db.mfa[user].pending, None, 0, step, 0, 0)]
    requires w'.totps == w.totps + [(w.db.mfa[user].pending.value, step)] && w'.secrets == w.secrets
    requires w'.db.recovery == NoCodes(w.db.recovery, user) + Fresh(user, codes)
    requires w'.recoveries == w.recoveries && w'.codes == w.codes + set c | c in codes
    ensures OneTime(w')
  {
    assert SecretsApart(w');
    assert StepsSpent(w');
    assert NoTotpTwice(w');
    assert CodesSpent(w') by { CodesApart(w, w', user, codes); }
  }

  lemma {:induction false} CodesApart(w: World, w': World, user: User, codes: seq<Code>)
    requires CodesSpent(w) && forall c :: c in codes ==> c !in w.codes
    requires w'.db.recovery == NoCodes(w.db.recovery, user) + Fresh(user, codes)
    requires w'.recoveries == w.recoveries && w'.codes == w.codes + set c | c in codes
    ensures CodesSpent(w')
  {
  }

  lemma {:induction false} ConfirmApart(w: World, totp: Totp, user: User, code: Code, keep: Option<string>,
                                        codes: seq<Code>, now: nat, w': World)
    requires OneTime(w) && forall c :: c in codes ==> c !in w.codes
    requires var (db, o) := Confirm(w.db, totp, user, code, keep, codes, now);
             w' == Logged(w, db, user, o).(codes := w.codes + set c | c in codes)
    ensures OneTime(w')
  {
    hide Verify, OneTime, WithoutUser, Revoke, NoCodes, Fresh;
    var (v, o) := Verify(w.db, totp, user, code, true, now);
    VerifyCases(w.db, totp, user, code, true, now);
    if o.ByTotp? {
      EnrolApart(w, w', user, o.step, codes);
    } else {
      var u := w'.(codes := w.codes);
      CountersApart(w, u);
      MoreCodes(u, w');
    }
  }

  lemma {:induction false} MoreCodes(w: World, w': World)
    requires OneTime(w) && w' == w.(codes := w'.codes) && w.codes <= w'.codes
    ensures OneTime(w')
  {
  }

  lemma {:induction false} BeginApart(w: World, w': World, user: User, secret: Secret, now: nat)
    requires OneTime(w) && secret !in w.secrets
    requires w' == w.(db := BeginMfa(w.db, user, secret, now), secrets := w.secrets + {secret})
    ensures OneTime(w')
  {
    hide TokenOk;
    assert SecretsApart(w');
    assert StepsSpent(w');
    assert CodesSpent(w');
  }

  lemma {:induction false} DisableApart(w: World, w': World, user: User, keep: Option<string>, now: nat)
    requires OneTime(w) && w' == w.(db := Disable(w.db, user, keep, now))
    ensures OneTime(w')
  {
    hide WithoutUser, Revoke;
    assert SecretsApart(w');
    assert StepsSpent(w');
    assert CodesSpent(w');
  }

  lemma {:induction false} CompleteApart(w: World, totp: Totp, hash: string, binding: Option<string>, code: Code,
                                         client: string, token: string, now: nat, w': World)
    requires OneTime(w) && w' == Next(w, totp, CompleteStep(hash, binding, code, client, token, now))
    ensures OneTime(w')
  {
    hide Verify, OneTime, WithoutHash, Prune, TokenOk, FindChallenge;
    var c := Usable(w.db, hash, binding, now);
    if c.Some? {
      VerifyApart(w, totp, c.value.user, code, now, VerifiedOnly(w, totp, c.value.user, code, now));
      var v := VerifiedOnly(w, totp, c.value.user, code, now);
      if w'.db.mfa == w.db.mfa && w'.totps == w.totps && w'.recoveries == w.recoveries
          && w'.db.recovery == w.db.recovery {
        CountersApart(w, w');
      } else {
        CountersApart(v, w');
      }
    } else {
      CountersApart(w, w');
    }
  }

  function VerifiedOnly(w: World, totp: Totp, user: User, code: Code, now: nat): World {
    var (db, o) := Verify(w.db, totp, user, code, false, now);
    Logged(w, db, user, o)
  }

  lemma {:induction false} NextOneTime(w: World, totp: Totp, s: Step)
    requires OneTime(w)
    ensures OneTime(Next(w, totp, s))
  {
    hide OneTime, Verify, Confirm, BeginMfa, Disable, WithoutUser, Revoke, Recent, Prune, TokenOk, FindChallenge;
    hide RoleAllowed;
    var w' := Next(w, totp, s);
    if !FreshDraw(w, s) {
      return;
    }
    match s
    case Begin(user, secret, now) => BeginApart(w, w', user, secret, now);
    case ConfirmStep(user, code, keep, codes, now) => ConfirmApart(w, totp, user, code, keep, codes, now, w');
    case Check(user, code, now) => VerifyApart(w, totp, user, code, now, w');
    case DisableStep(user, keep, now) => DisableApart(w, w', user, keep, now);
    case CompleteStep(hash, binding, code, client, token, now) =>
        CompleteApart(w, totp, hash, binding, code, client, token, now, w');
    case _ => CountersApart(w, w');
  }

  // ---- runs ----

  predicate IsRun(ws: seq<World>, totp: Totp, steps: seq<Step>) {
    && |ws| == |steps| + 1 && ws[0] == NewWorld(ws[0].db.users)
    && forall i :: 0 <= i < |steps| ==> ws[i + 1] == Next(ws[i], totp, steps[i])
  }

  /** In no run is a step of a secret, or a recovery code, accepted twice. */
  lemma {:induction false} CodesAreOneTime(ws: seq<World>, totp: Totp, steps: seq<Step>, i: nat)
    requires IsRun(ws, totp, steps) && i < |ws|
    ensures OneTime(ws[i])
    ensures forall j, k :: 0 <= j < k < |ws[i].totps| ==> ws[i].totps[j] != ws[i].totps[k]
    ensures forall j, k :: 0 <= j < k < |ws[i].recoveries| ==> ws[i].recoveries[j] != ws[i].recoveries[k]
  {
    hide Next;
    if i == 0 {
    } else {
      CodesAreOneTime(ws, totp, steps, i - 1);
      assert ws[i - 1 + 1] == Next(ws[i - 1], totp, steps[i - 1]);
      NextOneTime(ws[i - 1], totp, steps[i - 1]);
    }
  }
}
