// Attempt limits, the origin of sessions, and the bounds on both tables.
module MfaTheorems {
  import opened Common
  import opened MfaState
  import opened MfaRuns

  // ---- rejected attempts ----

  function OutcomeOf(w: World, totp: Totp, s: Step): Outcome {
    if !FreshDraw(w, s) then Unavailable
    else
      match s
      case Check(user, code, now) => Verify(w.db, totp, user, code, false, now).1
      case ConfirmStep(user, code, keep, codes, now) => Confirm(w.db, totp, user, code, keep, codes, now).1
      case CompleteStep(hash, binding, code, client, token, now) =>
          Complete(w.db, totp, hash, binding, code, client, token, now).1
      case _ => Unavailable
  }

  predicate Rejects(w: World, totp: Totp, s: Step, user: User) {
    UserOf(w, s) == user && OutcomeOf(w, totp, s).Rejected?
  }

  /** A success of the user, or a disabled factor. */
  predicate Clears(w: World, totp: Totp, s: Step, user: User) {
    UserOf(w, s) == user && (Accepted(OutcomeOf(w, totp, s)) || s.DisableStep?)
  }

  /** The row's counters after a rejection at this time. */
  predicate CountedUp(m: Mfa, m': Mfa, now: int) {
    m'.failed == Failed(m, now).failed && m'.lockedUntil == Failed(m, now).lockedUntil && m.lockedUntil <= now
  }

  predicate SameCounters(m: Mfa, m': Mfa) { m'.failed == m.failed && m'.lockedUntil == m.lockedUntil }

  /** What one check does to a user's counters, if it is not accepted. */
  ghost predicate Counters(a: map<User, Mfa>, b: map<User, Mfa>, user: User, rejected: bool, now: int) {
    && (user in a ==> user in b)
    && (rejected ==> user in a && CountedUp(a[user], b[user], now))
    && (!rejected && user in a ==> SameCounters(a[user], b[user]))
  }

  lemma {:induction false} VerifyCounters(db: Db, totp: Totp, who: User, code: Code, pending: bool, now: nat,
                                          user: User)
    ensures var (d, o) := Verify(db, totp, who, code, pending, now);
            who != user || !Accepted(o) ==> Counters(db.mfa, d.mfa, user, who == user && o.Rejected?, now)
  {
    hide Verify, Failed;
    var (d, o) := Verify(db, totp, who, code, pending, now);
    VerifyCases(db, totp, who, code, pending, now);
    if who != user && !o.Unavailable? && !o.LockedOut? {
      assert user in db.mfa ==> d.mfa[user] == db.mfa[user];
    }
  }

  lemma {:induction false} StepCounters(w: World, totp: Totp, s: Step, user: User)
    requires !Clears(w, totp, s, user)
    ensures Counters(w.db.mfa, Next(w, totp, s).db.mfa, user, Rejects(w, totp, s, user), s.now)
  {
    hide Verify, WithoutUser, Revoke, Recent, Prune, TokenOk, FindChallenge, RoleAllowed, NoCodes, Fresh;
    hide WithoutHash, Failed;
    if FreshDraw(w, s) {
      match s
      case Check(who, code, now) => VerifyCounters(w.db, totp, who, code, false, now, user);
      case ConfirmStep(who, code, keep, codes, now) => VerifyCounters(w.db, totp, who, code, true, now, user);
      case CompleteStep(hash, binding, code, client, token, now) =>
        var c := Usable(w.db, hash, binding, now);
        if c.Some? {
          VerifyCounters(w.db, totp, c.value.user, code, false, now, user);
        }
      case _ =>
    }
  }

  predicate FailedOk(w: World) { forall u :: u in w.db.mfa ==> 0 <= w.db.mfa[u].failed <= 4 }

  lemma {:induction false} VerifyFailedOk(db: Db, totp: Totp, who: User, code: Code, pending: bool, now: nat)
    requires forall u :: u in db.mfa ==> 0 <= db.mfa[u].failed <= 4
    ensures var d := Verify(db, totp, who, code, pending, now).0; forall u :: u in d.mfa ==> 0 <= d.mfa[u].failed <= 4
  {
    hide Verify;
    VerifyCases(db, totp, who, code, pending, now);
  }

  lemma {:induction false} NextFailedOk(w: World, totp: Totp, s: Step)
    requires FailedOk(w)
    ensures FailedOk(Next(w, totp, s))
  {
    hide Verify, WithoutUser, Revoke, Recent, Prune, TokenOk, FindChallenge, RoleAllowed, NoCodes, Fresh, WithoutHash;
    match s
    case Check(who, code, now) => VerifyFailedOk(w.db, totp, who, code, false, now);
    case ConfirmStep(who, code, keep, codes, now) => VerifyFailedOk(w.db, totp, who, code, true, now);
    case CompleteStep(hash, binding, code, client, token, now) =>
      var c := Usable(w.db, hash, binding, now);
      if c.Some? {
        VerifyFailedOk(w.db, totp, c.value.user, code, false, now);
      }
    case _ =>
  }

  lemma {:induction false} RunFailedOk(ws: seq<World>, totp: Totp, steps: seq<Step>, i: nat)
    requires IsRun(ws, totp, steps) && i < |ws|
    ensures FailedOk(ws[i])
  {
    hide Next;
    if i == 0 {
    } else {
      RunFailedOk(ws, totp, steps, i - 1);
      assert ws[i - 1 + 1] == Next(ws[i - 1], totp, steps[i - 1]);
      NextFailedOk(ws[i - 1], totp, steps[i - 1]);
    }
  }

  /** How many of the steps from i up to k reject the user. */
  function Rejections(ws: seq<World>, totp: Totp, steps: seq<Step>, user: User, i: nat, k: nat): nat
    requires i <= k <= |steps| <= |ws|
    decreases k - i
  {
    if k == i then 0
    else Rejections(ws, totp, steps, user, i, k - 1) + if Rejects(ws[k - 1], totp, steps[k - 1], user) then 1 else 0
  }

  /** From a first rejection at step i up to state k, without a success or a disabled factor. */
  ghost predicate Streak(ws: seq<World>, totp: Totp, steps: seq<Step>, user: User, i: nat, k: nat) {
    && IsRun(ws, totp, steps) && i < k <= |steps| && Rejects(ws[i], totp, steps[i], user)
    && (forall m :: i <= m < k ==> !Clears(ws[m], totp, steps[m], user))
    && (forall m :: i <= m < k - 1 ==> steps[m].now <= steps[m + 1].now)
  }

  /** Each full five rejections so far have pushed the next one by a lock. */
  lemma {:induction false} LocksAddUp(ws: seq<World>, totp: Totp, steps: seq<Step>, user: User, i: nat, k: nat)
    returns (locks: nat)
    requires Streak(ws, totp, steps, user, i, k)
    ensures user in ws[i].db.mfa && user in ws[k].db.mfa && 0 <= ws[k].db.mfa[user].failed <= 4
    ensures 5 * locks == ws[i].db.mfa[user].failed + Rejections(ws, totp, steps, user, i, k) - ws[k].db.mfa[user].failed
    ensures ws[k].db.mfa[user].lockedUntil >= steps[i].now + LOCK_SECONDS * locks
            || steps[k - 1].now >= steps[i].now + LOCK_SECONDS * locks
    decreases k
  {
    hide Next, Clears, Rejects;
    var n := k - 1;
    assert ws[n + 1] == Next(ws[n], totp, steps[n]);
    StepCounters(ws[n], totp, steps[n], user);
    RunFailedOk(ws, totp, steps, n);
    RunFailedOk(ws, totp, steps, k);
    if n == i {
      assert Rejections(ws, totp, steps, user, i, i) == 0;
      locks := if ws[i].db.mfa[user].failed >= 4 then 1 else 0;
    } else {
      var before := LocksAddUp(ws, totp, steps, user, i, n);
      assert steps[n - 1].now <= steps[n - 1 + 1].now;
      locks := if Rejects(ws[n], totp, steps[n], user) && ws[n].db.mfa[user].failed >= 4 then before + 1 else before;
    }
  }

  /**
   * With a clock that does not go back, n rejections in a row span at least 300 seconds for every full five after
   * the first.
   */
  lemma {:induction false} AttemptLimit(ws: seq<World>, totp: Totp, steps: seq<Step>, user: User, i: nat, j: nat)
    requires Streak(ws, totp, steps, user, i, j) && j < |steps| && steps[j - 1].now <= steps[j].now
    requires Rejects(ws[j], totp, steps[j], user)
    ensures var n := Rejections(ws, totp, steps, user, i, j) + 1;
            steps[j].now - steps[i].now >= LOCK_SECONDS * ((n - 1) / 5)
  {
    hide Next;
    var locks := LocksAddUp(ws, totp, steps, user, i, j);
    RunFailedOk(ws, totp, steps, i);
    RejectedWhenUnlocked(ws[j], totp, steps[j], user);
    var n := Rejections(ws, totp, steps, user, i, j) + 1;
    assert locks >= (n - 1) / 5;
  }

  lemma {:induction false} RejectedWhenUnlocked(w: World, totp: Totp, s: Step, user: User)
    requires Rejects(w, totp, s, user)
    ensures user in w.db.mfa && w.db.mfa[user].lockedUntil <= s.now
  {
    hide Verify;
    match s
    case Check(who, code, now) => VerifyCases(w.db, totp, who, code, false, now);
    case ConfirmStep(who, code, keep, codes, now) => VerifyCases(w.db, totp, who, code, true, now);
    case CompleteStep(hash, binding, code, client, token, now) =>
      var c := Usable(w.db, hash, binding, now);
      if c.Some? {
        VerifyCases(w.db, totp, c.value.user, code, false, now);
      }
  }

  // ---- challenges ----

  predicate UniqueHashes(cs: seq<Challenge>) { forall i, j :: 0 <= i < j < |cs| ==> cs[i].hash != cs[j].hash }

  predicate Within(cs: seq<Challenge>, all: seq<Challenge>) { forall i :: 0 <= i < |cs| ==> cs[i] in all }

  /** Stored challenges have distinct hashes that were drawn; a used one is gone for good, and used once. */
  predicate ChallengesOk(w: World) {
    && UniqueHashes(w.db.challenges)
    && (forall i :: 0 <= i < |w.db.challenges| ==> w.db.challenges[i].hash in w.hashes)
    && (forall k :: 0 <= k < |w.issued| && w.issued[k].challenge.Some? ==>
          && w.issued[k].challenge.value in w.hashes
          && forall i :: 0 <= i < |w.db.challenges| ==> w.db.challenges[i].hash != w.issued[k].challenge.value)
    && (forall k, l :: 0 <= k < l < |w.issued| && w.issued[k].challenge.Some? ==>
          w.issued[k].challenge != w.issued[l].challenge)
  }

  predicate HasHash(cs: seq<Challenge>, hash: string) { exists i :: 0 <= i < |cs| && cs[i].hash == hash }

  lemma {:induction false} WithoutHashIs(cs: seq<Challenge>, hash: string)
    requires UniqueHashes(cs)
    ensures var r := WithoutHash(cs, hash); UniqueHashes(r) && Within(r, cs) && !HasHash(r, hash)
  {
    if |cs| == 0 {
    } else {
      var n := |cs| - 1;
      var r, c := WithoutHash(cs[..n], hash), cs[n];
      WithoutHashIs(cs[..n], hash);
      PrefixWithin(r, cs, n);
      assert r + [] == r;
      if c.hash != hash {
        SnocUnique(r, cs, n);
        SnocLacks(r, c, hash);
      }
    }
  }

  lemma {:induction false} SnocLacks(r: seq<Challenge>, c: Challenge, hash: string)
    requires !HasHash(r, hash) && c.hash != hash
    ensures !HasHash(r + [c], hash)
  {
    assert forall i :: 0 <= i < |r| ==> (r + [c])[i] == r[i] && r[i].hash != hash;
  }

  lemma {:induction false} PrefixWithin(r: seq<Challenge>, cs: seq<Challenge>, n: nat)
    requires n < |cs| && Within(r, cs[..n])
    ensures Within(r, cs)
  {
    forall i | 0 <= i < |r|
      ensures r[i] in cs
    {
      assert r[i] in cs[..n];
    }
  }

  lemma {:induction false} SnocUnique(r: seq<Challenge>, cs: seq<Challenge>, n: nat)
    requires n < |cs| && UniqueHashes(cs) && UniqueHashes(r) && Within(r, cs[..n])
    ensures UniqueHashes(r + [cs[n]]) && Within(r + [cs[n]], cs)
  {
    PrefixWithin(r, cs, n);
    forall i | 0 <= i < |r|
      ensures r[i].hash != cs[n].hash
    {
      assert r[i] in cs[..n];
    }
  }

  lemma {:induction false} OneLess(cs: seq<Challenge>, hash: string)
    requires UniqueHashes(cs)
    ensures |WithoutHash(cs, hash)| == |cs| - if HasHash(cs, hash) then 1 else 0
  {
    if |cs| == 0 {
    } else {
      var n := |cs| - 1;
      OneLess(cs[..n], hash);
      if cs[n].hash == hash {
        assert !HasHash(cs[..n], hash);
        assert HasHash(cs, hash);
      } else if HasHash(cs[..n], hash) {
        var i :| 0 <= i < n && cs[..n][i].hash == hash;
        assert cs[i].hash == hash;
        assert HasHash(cs, hash);
      } else {
        assert forall i :: 0 <= i < n ==> cs[..n][i] == cs[i];
        assert !HasHash(cs, hash);
      }
    }
  }

  lemma {:induction false} WithoutUserIs(cs: seq<Challenge>, user: User)
    requires UniqueHashes(cs)
    ensures UniqueHashes(WithoutUser(cs, user)) && Within(WithoutUser(cs, user), cs)
  {
    if |cs| == 0 {
    } else {
      var n := |cs| - 1;
      WithoutUserIs(cs[..n], user);
      var r := WithoutUser(cs[..n], user);
      assert r + [] == r;
      assert forall i :: 0 <= i < |r| ==> r[i] in cs[..n];
    }
  }

  lemma {:induction false} RecentIs(cs: seq<Challenge>, user: User, n: nat, now: int)
    requires UniqueHashes(cs)
    ensures UniqueHashes(Recent(cs, user, n, now)) && Within(Recent(cs, user, n, now), cs)
  {
    if |cs| == 0 {
    } else {
      var k, c := |cs| - 1, cs[|cs| - 1];
      var m := if c.user == user && n > 0 then n - 1 else n;
      RecentIs(cs[..k], user, m, now);
      var r := Recent(cs[..k], user, m, now);
      assert r + [] == r;
      assert forall i :: 0 <= i < |r| ==> r[i] in cs[..k];
    }
  }

  lemma {:induction false} FoundIsThere(cs: seq<Challenge>, hash: string)
    ensures FindChallenge(cs, hash).Some? ==> exists i ::
            0 <= i < |cs| && cs[i] == FindChallenge(cs, hash).value && cs[i].hash == hash
  {
    if |cs| > 0 && cs[|cs| - 1].hash != hash {
      FoundIsThere(cs[..|cs| - 1], hash);
      if FindChallenge(cs, hash).Some? {
        var i :| 0 <= i < |cs| - 1 && cs[..|cs| - 1][i] == FindChallenge(cs, hash).value && cs[i].hash == hash;
        assert cs[i] == FindChallenge(cs, hash).value;
      }
    }
  }

  lemma {:induction false} FewerChallenges(w: World, w': World)
    requires ChallengesOk(w) && UniqueHashes(w'.db.challenges) && Within(w'.db.challenges, w.db.challenges)
    requires w'.hashes == w.hashes && w'.issued == w.issued
    ensures ChallengesOk(w')
  {
  }

  lemma {:induction false} VerifyKeepsRest(db: Db, totp: Totp, user: User, code: Code, pending: bool, now: nat)
    ensures var d := Verify(db, totp, user, code, pending, now).0;
            d.challenges == db.challenges && d.sessions == db.sessions && d.users == db.users
  {
    hide Verify;
    VerifyCases(db, totp, user, code, pending, now);
  }

  lemma {:induction false} AskOk(w: World, w': World, user: User, c: Challenge, now: int)
    requires ChallengesOk(w) && c.hash !in w.hashes && w'.issued == w.issued && w'.hashes == w.hashes + {c.hash}
    requires w'.db.challenges == Recent(w.db.challenges, user, KEPT_CHALLENGES, now) + [c]
    ensures ChallengesOk(w')
  {
    RecentIs(w.db.challenges, user, KEPT_CHALLENGES, now);
    var v := w.(db := w.db.(challenges := Recent(w.db.challenges, user, KEPT_CHALLENGES, now)));
    FewerChallenges(w, v);
    hide Recent;
  }

  lemma {:induction false} UseOk(w: World, w': World, hash: string, user: User)
    requires ChallengesOk(w) && FindChallenge(w.db.challenges, hash).Some?
    requires w'.db.challenges == WithoutHash(w.db.challenges, hash) && w'.hashes == w.hashes
    requires w'.issued == w.issued + [Issued(user, Some(hash))]
    ensures ChallengesOk(w')
  {
    hide WithoutHash, FindChallenge;
    WithoutHashIs(w.db.challenges, hash);
    FoundIsThere(w.db.challenges, hash);
    var v := w.(db := w.db.(challenges := w'.db.challenges));
    FewerChallenges(w, v);
    var i :| 0 <= i < |w.db.challenges| && w.db.challenges[i].hash == hash;
  }

  lemma {:induction false} CompleteCases(w: World, totp: Totp, hash: string, binding: Option<string>, code: Code,
                                         client: string, token: string, now: nat)
    ensures var w' := Next(w, totp, CompleteStep(hash, binding, code, client, token, now));
            && w'.hashes == w.hashes
            && (if w'.issued == w.issued then w'.db.challenges == w.db.challenges && w'.db.sessions == w.db.sessions
                else
                  var c := Usable(w.db, hash, binding, now);
                  && c.Some? && w'.issued == w.issued + [Issued(c.value.user, Some(hash))]
                  && w'.db.challenges == WithoutHash(w.db.challenges, hash)
                  && Accepted(OutcomeOf(w, totp, CompleteStep(hash, binding, code, client, token, now)))
                  && exists s: Session :: s.user == c.value.user
                      && w'.db.sessions == Prune(w.db.sessions + [s], c.value.user, now))
  {
    hide Verify, WithoutHash, Prune, TokenOk, FindChallenge;
    var c := Usable(w.db, hash, binding, now);
    if c.Some? {
      VerifyKeepsRest(w.db, totp, c.value.user, code, false, now);
      var s := Session(token, c.value.user, c.value.method' + "+mfa", client, now, now + SESSION_SECONDS, None);
      var w' := Next(w, totp, CompleteStep(hash, binding, code, client, token, now));
      assert w'.issued != w.issued ==> w'.db.sessions == Prune(w.db.sessions + [s], c.value.user, now);
    }
  }

  lemma {:induction false} NextChallengesOk(w: World, totp: Totp, s: Step)
    requires ChallengesOk(w)
    ensures ChallengesOk(Next(w, totp, s))
  {
    hide ChallengesOk, Verify, WithoutUser, Revoke, Recent, Prune, TokenOk, RoleAllowed, NoCodes, Fresh, WithoutHash;
    hide UniqueHashes, Within;
    hide FindChallenge;
    var w' := Next(w, totp, s);
    if !FreshDraw(w, s) {
      return;
    }
    UniqueNow(w);
    match s
    case AskStep(user, method', hash, binding, now) =>
      if Ask(w.db, user, method', hash, binding, now).Some? {
        AskOk(w, w', user, Challenge(hash, binding, user, method', now + CHALLENGE_SECONDS), now);
      }
    case CompleteStep(hash, binding, code, client, token, now) =>
      CompleteCases(w, totp, hash, binding, code, client, token, now);
      if w'.issued == w.issued {
        FewerChallenges(w, w');
      } else {
        UseOk(w, w', hash, Usable(w.db, hash, binding, now).value.user);
      }
    case Login(user, method', client, token, now) => LoginOk(w, w', user);
    case ConfirmStep(user, code, keep, codes, now) =>
      VerifyKeepsRest(w.db, totp, user, code, true, now);
      WithoutUserIs(w.db.challenges, user);
      FewerChallenges(w, w');
    case Check(user, code, now) =>
      VerifyKeepsRest(w.db, totp, user, code, false, now);
      FewerChallenges(w, w');
    case Begin(_, _, _) => FewerChallenges(w, w');
    case _ =>
      WithoutUserIs(w.db.challenges, s.user);
      FewerChallenges(w, w');
  }

  lemma {:induction false} UniqueNow(w: World)
    requires ChallengesOk(w)
    ensures UniqueHashes(w.db.challenges) && Within(w.db.challenges, w.db.challenges)
  {
  }

  lemma {:induction false} LoginOk(w: World, w': World, user: User)
    requires ChallengesOk(w) && w'.db.challenges == w.db.challenges && w'.hashes == w.hashes
    requires w'.issued == w.issued || w'.issued == w.issued + [Issued(user, None)]
    ensures ChallengesOk(w')
  {
  }

  lemma {:induction false} RunChallengesOk(ws: seq<World>, totp: Totp, steps: seq<Step>, i: nat)
    requires IsRun(ws, totp, steps) && i < |ws|
    ensures ChallengesOk(ws[i])
  {
    hide Next;
    if i == 0 {
    } else {
      RunChallengesOk(ws, totp, steps, i - 1);
      assert ws[i - 1 + 1] == Next(ws[i - 1], totp, steps[i - 1]);
      NextChallengesOk(ws[i - 1], totp, steps[i - 1]);
    }
  }

  /**
   * A session issued to a user whose second factor is enabled comes from a
   * login that presented an unexpired challenge of that user and an accepted
   * code, and took exactly that one challenge away.
   */
  lemma {:induction false} SessionOrigin(ws: seq<World>, totp: Totp, steps: seq<Step>, i: nat)
    requires IsRun(ws, totp, steps) && i < |steps| && ws[i + 1].issued != ws[i].issued
    ensures |ws[i + 1].issued| == |ws[i].issued| + 1
    ensures var w, w', last := ws[i], ws[i + 1], ws[i + 1].issued[|ws[i].issued|];
            Enabled(w.db, last.user) ==>
              && steps[i].CompleteStep? && last.challenge == Some(steps[i].hash)
              && (exists k :: 0 <= k < |w.db.challenges| && w.db.challenges[k].hash == steps[i].hash
                              && w.db.challenges[k].user == last.user && w.db.challenges[k].expires > steps[i].now
                              && w.db.challenges[k].binding == steps[i].binding)
              && Accepted(OutcomeOf(w, totp, steps[i]))
              && |w'.db.challenges| == |w.db.challenges| - 1
              && (forall k :: 0 <= k < |w'.db.challenges| ==> w'.db.challenges[k].hash != steps[i].hash)
  {
    hide ChallengesOk, Verify, WithoutUser, Revoke, Recent, Prune, TokenOk, RoleAllowed, WithoutHash, FindChallenge;
    hide Confirm;
    assert ws[i + 1] == Next(ws[i], totp, steps[i]);
    RunChallengesOk(ws, totp, steps, i);
    UniqueNow(ws[i]);
    if steps[i].CompleteStep? {
      var s := steps[i];
      CompleteCases(ws[i], totp, s.hash, s.binding, s.code, s.client, s.token, s.now);
      FoundIsThere(ws[i].db.challenges, s.hash);
      WithoutHashIs(ws[i].db.challenges, s.hash);
      OneLess(ws[i].db.challenges, s.hash);
    }
  }

  /** No challenge is used for two sessions. */
  lemma {:induction false} ChallengesAreOneTime(ws: seq<World>, totp: Totp, steps: seq<Step>, i: nat, k: nat, l: nat)
    requires IsRun(ws, totp, steps) && i < |ws| && k < l < |ws[i].issued| && ws[i].issued[k].challenge.Some?
    ensures ws[i].issued[k].challenge != ws[i].issued[l].challenge
  {
    RunChallengesOk(ws, totp, steps, i);
  }

  // ---- bounds ----

  const MAX_CHALLENGES: nat := KEPT_CHALLENGES + 1

  predicate Few(db: Db, u: User) {
    CountChallenges(db.challenges, u) <= MAX_CHALLENGES && CountSessions(db.sessions, u) <= MAX_SESSIONS
  }

  lemma {:induction false} RevokeKeepsCount(a: seq<Session>, b: seq<Session>, user: User)
    requires |a| == |b| && forall i :: 0 <= i < |a| ==> a[i].user == b[i].user
    ensures CountSessions(a, user) == CountSessions(b, user)
  {
    if |a| == 0 {
    } else {
      RevokeKeepsCount(a[1..], b[1..], user);
    }
  }

  lemma {:induction false} IssueFew(ss: seq<Session>, s: Session, user: User, now: int, other: User)
    requires s.user == user && CountSessions(ss, other) <= MAX_SESSIONS
    ensures CountSessions(Prune(ss + [s], user, now), other) <= MAX_SESSIONS
  {
    if other == user {
      SessionsAreFew(ss + [s], user, now);
    } else {
      OthersKept(ss + [s], user, now, 0, other);
      assert (ss + [s])[0..] == ss + [s];
      CountSessionsSnoc(ss, s, other);
    }
  }

  lemma {:induction false} NextFew(w: World, totp: Totp, s: Step, u: User)
    requires Few(w.db, u)
    ensures Few(Next(w, totp, s).db, u)
  {
    hide Verify, WithoutUser, Recent, Prune, TokenOk, RoleAllowed, NoCodes, Fresh, WithoutHash, CountChallenges;
    hide CountSessions;
    hide FindChallenge;
    if !FreshDraw(w, s) {
      return;
    }
    match s
    case AskStep(user, method', hash, binding, now) =>
      RecentAreFew(w.db.challenges, user, KEPT_CHALLENGES, now);
      RecentAreFewer(w.db.challenges, user, KEPT_CHALLENGES, now, u);
      CountSnoc(Recent(w.db.challenges, user, KEPT_CHALLENGES, now),
            Challenge(hash, binding, user, method', now + CHALLENGE_SECONDS), u);
    case CompleteStep(hash, binding, code, client, token, now) =>
      CompleteCases(w, totp, hash, binding, code, client, token, now);
      FewerWithoutHash(w.db.challenges, hash, u);
      CompletedFew(w, Next(w, totp, s), u, now);
    case Login(user, method', client, token, now) =>
      IssueFew(w.db.sessions, Session(token, user, method', client, now, now + SESSION_SECONDS, None), user, now, u);
    case ConfirmStep(user, code, keep, codes, now) =>
      VerifyKeepsRest(w.db, totp, user, code, true, now);
      FewerWithoutUser(w.db.challenges, user, u);
      RevokeKeepsCount(w.db.sessions, Revoke(w.db.sessions, user, keep, now), u);
    case Check(user, code, now) => VerifyKeepsRest(w.db, totp, user, code, false, now);
    case DisableStep(user, keep, now) =>
      FewerWithoutUser(w.db.challenges, user, u);
      RevokeKeepsCount(w.db.sessions, Revoke(w.db.sessions, user, keep, now), u);
    case RevokeStep(user, keep, now) =>
      FewerWithoutUser(w.db.challenges, user, u);
      RevokeKeepsCount(w.db.sessions, Revoke(w.db.sessions, user, keep, now), u);
    case RoleStep(user, role, now) =>
      FewerWithoutUser(w.db.challenges, user, u);
      RevokeKeepsCount(w.db.sessions, Revoke(w.db.sessions, user, None, now), u);
    case Begin(_, _, _) =>
  }

  lemma {:induction false} CompletedFew(w: World, w': World, u: User, now: int)
    requires CountSessions(w.db.sessions, u) <= MAX_SESSIONS
    requires w'.db.sessions == w.db.sessions ||
             exists who: User, s: Session :: s.user == who && w'.db.sessions == Prune(w.db.sessions + [s], who, now)
    ensures CountSessions(w'.db.sessions, u) <= MAX_SESSIONS
  {
    hide Prune, CountSessions;
    if w'.db.sessions != w.db.sessions {
      var who: User, s: Session :| s.user == who && w'.db.sessions == Prune(w.db.sessions + [s], who, now);
      IssueFew(w.db.sessions, s, who, now, u);
    }
  }

  /** In every reachable state a user has at most ten challenges and a hundred sessions. */
  lemma {:induction false} TablesStaySmall(ws: seq<World>, totp: Totp, steps: seq<Step>, i: nat, u: User)
    requires IsRun(ws, totp, steps) && i < |ws|
    ensures Few(ws[i].db, u)
  {
    hide Next;
    if i == 0 {
    } else {
      TablesStaySmall(ws, totp, steps, i - 1, u);
      assert ws[i - 1 + 1] == Next(ws[i - 1], totp, steps[i - 1]);
      NextFew(ws[i - 1], totp, steps[i - 1], u);
    }
  }

  // ---- a clock that goes back ----

  function Fold(w: World, totp: Totp, steps: seq<Step>): World {
    if |steps| == 0 then w else Next(Fold(w, totp, steps[..|steps| - 1]), totp, steps[|steps| - 1])
  }

  /** A token for each number. */
  function Token(k: nat): string { seq(k, _ => 't') }

  const USERS: map<User, string> := map["u" := "admin"]

  function LoginAt(k: nat, now: nat): Step { Login("u", "password", "", Token(k), now) }
  function Logins(n: nat): seq<Step> { seq(n, k requires 0 <= k < n => LoginAt(k, 1)) }

  function SessionFor(k: nat, now: int): Session {
    Session(Token(k), "u", "password", "", now, now + SESSION_SECONDS, None)
  }
  function Sessions(n: nat): seq<Session> { seq(n, k requires 0 <= k < n => SessionFor(k, 1)) }

  lemma {:induction false} LoginStep(w: World, totp: Totp, k: nat, now: nat)
    requires w.db == Db(USERS, map[], map[], [], w.db.sessions)
    ensures Next(w, totp, LoginAt(k, now)) ==
            w.(db := w.db.(sessions := Prune(w.db.sessions + [SessionFor(k, now)], "u", now)),
                  issued := w.issued + [Issued("u", None)])
  {
    hide Prune, Token;
  }

  lemma {:induction false} LoginsAdd(totp: Totp, n: nat)
    requires n <= MAX_SESSIONS
    ensures Fold(NewWorld(USERS), totp, Logins(n)).db == Db(USERS, map[], map[], [], Sessions(n))
  {
    hide Prune, Next, Token;
    if n == 0 {
    } else {
      LoginsAdd(totp, n - 1);
      assert Logins(n)[..n - 1] == Logins(n - 1);
      LoginStep(Fold(NewWorld(USERS), totp, Logins(n - 1)), totp, n - 1, 1);
      assert Sessions(n - 1) + [SessionFor(n - 1, 1)] == Sessions(n);
      HundredAreKept(Sessions(n), "u", 1);
    }
  }

  /** A hundred logins, and one more after the clock has gone back: it is answered, and its session is gone at once. */
  lemma {:induction false} ClockGoesBack(totp: Totp)
    ensures var w := Fold(NewWorld(USERS), totp, Logins(MAX_SESSIONS));
            var w' := Next(w, totp, LoginAt(MAX_SESSIONS, 0));
            && w'.issued == w.issued + [Issued("u", None)]
            && forall i :: 0 <= i < |w'.db.sessions| ==> w'.db.sessions[i].token != Token(MAX_SESSIONS)
  {
    hide Fold, Prune, Next, Token, Sessions;
    var w := Fold(NewWorld(USERS), totp, Logins(MAX_SESSIONS));
    LoginsAdd(totp, MAX_SESSIONS);
    LoginStep(w, totp, MAX_SESSIONS, 0);
    LateToken(MAX_SESSIONS);
  }

  lemma {:induction false} LateToken(n: nat)
    requires n >= MAX_SESSIONS
    ensures var r := Prune(Sessions(n) + [SessionFor(n, 0)], "u", 0);
            forall i :: 0 <= i < |r| ==> r[i].token != Token(n)
  {
    hide PruneFrom, Survives;
    var ss, s := Sessions(n), SessionFor(n, 0);
    OtherTokens(n);
    LateIsDropped(n);
    var r := Prune(ss + [s], "u", 0);
    forall i | 0 <= i < |r|
      ensures r[i].token != Token(n)
    {
      PrunedAre(ss + [s], "u", 0, 0, r[i]);
      KeptIsThere(ss + [s], "u", 0, r[i]);
    }
  }

  lemma {:induction false} OtherTokens(n: nat)
    ensures forall k :: 0 <= k < n ==> Sessions(n)[k].token != Token(n)
  {
    forall k | 0 <= k < n
      ensures Sessions(n)[k].token != Token(n)
    {
      assert |Token(k)| == k && |Token(n)| == n;
    }
  }

  lemma {:induction false} LateIsDropped(n: nat)
    requires n >= MAX_SESSIONS
    ensures SessionFor(n, 0) !in Prune(Sessions(n) + [SessionFor(n, 0)], "u", 0)
  {
    hide Prune, Token, Below, TokenOk, LabelOk, Sessions;
    var db := Db(USERS, map[], map[], [], Sessions(n));
    LaterOnes(n);
    OtherTokens(n);
    IssueGranted(db, n);
    IssuedIsKept(db, "u", "password", "", Token(n), false, 0);
  }

  lemma {:induction false} IssueGranted(db: Db, n: nat)
    requires db.users == USERS && db.mfa == map[]
    ensures Issue(db, "u", "password", "", Token(n), false, 0) ==
            Some(db.(sessions := Prune(db.sessions + [SessionFor(n, 0)], "u", 0)))
  {
    hide Prune, Token;
  }

  lemma {:induction false} LaterOnes(n: nat)
    ensures |Sessions(n)| == n
    ensures (set j | 0 <= j < |Sessions(n)| && Sessions(n)[j].user == "u" && Sessions(n)[j].created > 0) == Below(n)
  {
    hide Token, Below;
  }

  lemma {:induction false} KeptIsThere(ss: seq<Session>, user: User, now: int, s: Session)
    requires KeptFrom(ss, user, now, 0, s)
    ensures s in ss
  {
  }
}
