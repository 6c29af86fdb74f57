// The account tables as one object whose transactions update them in place
// (c/src/auth_security.c).  An SQL statement over many rows is one assignment;
// a rollback puts back the rows saved when the transaction began.
module AuthStore {
  import opened Common
  import opened MfaState

  /** The loop over the three steps around now: a later match replaces an earlier one. */
  method FindStep(totp: Totp, secret: Secret, lastStep: int, pending: bool, code: Code, now: nat) returns (matched: int)
    ensures match Matched(totp, secret, lastStep, pending, code, now)
            case Some(step) => matched == step
            case None => matched == -1
  {
    matched := -1;
    if |code| == 6 {
      for delta := -1 to 2
        invariant matched == -1 || (0 <= matched && now / 30 - 1 <= matched < now / 30 + delta)
        invariant matched >= 0 ==> StepMatches(totp, secret, lastStep, pending, code, matched)
        invariant forall step :: now / 30 - 1 <= step < now / 30 + delta && step > matched ==>
                    !StepMatches(totp, secret, lastStep, pending, code, step)
      {
        var step := now / 30 + delta;
        if step >= 0 && (pending || step > lastStep) && totp(secret, step) == code {
          matched := step;
        }
      }
      Last(totp, secret, lastStep, pending, code, now, matched);
    }
  }

  lemma {:induction false} Last(totp: Totp, secret: Secret, lastStep: int, pending: bool, code: Code, now: nat,
                                matched: int)
    requires |code| == 6 && (matched == -1 || (0 <= matched && now / 30 - 1 <= matched <= now / 30 + 1))
    requires matched >= 0 ==> StepMatches(totp, secret, lastStep, pending, code, matched)
    requires forall step :: now / 30 - 1 <= step < now / 30 + 2 && step > matched ==>
               !StepMatches(totp, secret, lastStep, pending, code, step)
    ensures match Matched(totp, secret, lastStep, pending, code, now)
            case Some(step) => matched == step
            case None => matched == -1
  {
    hide StepMatches;
    var q := now / 30;
    Negative(totp, secret, lastStep, pending, code, q - 1);
  }

  lemma {:induction false} Negative(totp: Totp, secret: Secret, lastStep: int, pending: bool, code: Code, step: int)
    ensures step < 0 ==> !StepMatches(totp, secret, lastStep, pending, code, step)
  {
  }

  lemma {:induction false} NoCodeYet(before: map<(User, Code), bool>, user: User, codes: seq<Code>)
    ensures before + Fresh(user, codes[..0]) == before
  {
  }

  lemma {:induction false} OneMoreCode(before: map<(User, Code), bool>, user: User, codes: seq<Code>, i: nat)
    requires i < |codes|
    ensures before + Fresh(user, codes[..i + 1]) == (before + Fresh(user, codes[..i]))[(user, codes[i]) := false]
  {
    assert codes[..i + 1] == codes[..i] + [codes[i]];
  }

  class Store {
    var users: map<User, string>
    var mfa: map<User, Mfa>
    var recovery: map<(User, Code), bool>
    var challenges: seq<Challenge>
    var sessions: seq<Session>

    function State(): Db
      reads this
    {
      Db(users, mfa, recovery, challenges, sessions)
    }

    constructor (accounts: map<User, string>)
      ensures State() == Db(accounts, map[], map[], [], [])
    {
      users, mfa, recovery, challenges, sessions := accounts, map[], map[], [], [];
    }

    method Restore(saved: Db)
      modifies this
      ensures State() == saved
    {
      users, mfa, recovery := saved.users, saved.mfa, saved.recovery;
      challenges, sessions := saved.challenges, saved.sessions;
    }

    method FailedLocked(user: User, now: int)
      requires user in mfa
      modifies `mfa
      ensures mfa == old(mfa)[user := Failed(old(mfa)[user], now)]
    {
      var m := mfa[user];
      mfa := mfa[user := m.(failed := if m.failed >= 4 then 0 else m.failed + 1,
                            lockedUntil := if m.failed >= 4 then now + LOCK_SECONDS else 0)];
    }

    method VerifyLocked(totp: Totp, user: User, code: Code, pending: bool, now: nat) returns (o: Outcome)
      modifies `mfa, `recovery
      ensures (State(), o) == Verify(old(State()), totp, user, code, pending, now)
    {
      hide Matched, TokenOk;
      if !TokenOk(user, 256) || user !in mfa {
        return Unavailable;
      }
      var m := mfa[user];
      var slot := if pending then m.pending else m.secret;
      if slot.None? || (pending && m.pendingUntil <= now) {
        return Unavailable;
      }
      if m.lockedUntil > now {
        return LockedOut;
      }
      if !TokenOk(code, 128) {
        FailedLocked(user, now);
        return Rejected;
      }
      var matched := FindStep(totp, slot.value, m.lastStep, pending, code, now);
      var recovered := false;
      if matched < 0 && !pending && (user, code) in recovery && !recovery[(user, code)] {
        recovery := recovery[(user, code) := true];
        recovered := true;
      }
      if matched < 0 && !recovered {
        FailedLocked(user, now);
        return Rejected;
      }
      var lastStep := if pending || recovered then m.lastStep else matched;
      mfa := mfa[user := m.(lastStep := lastStep, failed := 0, lockedUntil := 0)];
      return if recovered then ByRecovery(code) else ByTotp(slot.value, matched);
    }

    method BeginEnrolment(user: User, secret: Secret, now: int)
      modifies `mfa
      ensures State() == BeginMfa(old(State()), user, secret, now)
    {
      hide TokenOk;
      if TokenOk(user, 256) && user in users {
        var m := if user in mfa then mfa[user] else NEW_ROW;
        mfa := mfa[user := m.(pending := Some(secret), pendingUntil := now + PENDING_SECONDS)];
      }
    }

    /** The new recovery codes go in one by one. */
    method InsertCodes(user: User, codes: seq<Code>)
      modifies `recovery
      ensures recovery == old(recovery) + Fresh(user, codes)
    {
      hide Fresh;
      NoCodeYet(recovery, user, codes);
      for i := 0 to |codes|
        invariant recovery == old(recovery) + Fresh(user, codes[..i])
      {
        OneMoreCode(old(recovery), user, codes, i);
        recovery := recovery[(user, codes[i]) := false];
      }
      assert codes[..|codes|] == codes;
    }

    method ConfirmEnrolment(totp: Totp, user: User, code: Code, keep: Option<string>, codes: seq<Code>, now: nat)
      returns (o: Outcome)
      modifies this
      ensures (State(), o) == Confirm(old(State()), totp, user, code, keep, codes, now)
    {
      hide Matched, TokenOk, Fresh, NoCodes, WithoutUser, Revoke, Failed;
      o := VerifyLocked(totp, user, code, true, now);
      if !o.ByTotp? || user !in mfa {
        return;
      }
      var m := mfa[user];
      mfa := mfa[user := m.(secret := m.pending, pending := None, pendingUntil := 0, lastStep := o.step)];
      recovery := NoCodes(recovery, user);
      InsertCodes(user, codes);
      sessions := Revoke(sessions, user, keep, now);
      challenges := WithoutUser(challenges, user);
    }

    method DisableMfa(user: User, keep: Option<string>, now: int)
      modifies this
      ensures State() == Disable(old(State()), user, keep, now)
    {
      if user in users {
        mfa := mfa - {user};
        recovery := NoCodes(recovery, user);
        sessions := Revoke(sessions, user, keep, now);
        challenges := WithoutUser(challenges, user);
      }
    }

    method IssueLocked(user: User, method': string, client: string, token: string, completed: bool, now: int)
      returns (ok: bool)
      modifies `sessions
      ensures ok <==> Issue(old(State()), user, method', client, token, completed, now).Some?
      ensures ok ==> Some(State()) == Issue(old(State()), user, method', client, token, completed, now)
      ensures !ok ==> State() == old(State())
    {
      hide TokenOk, Prune;
      if !TokenOk(method', 32) || !LabelOk(client) || user !in users
          || (user in mfa && mfa[user].secret.Some? && !completed) {
        return false;
      }
      sessions := sessions + [Session(token, user, method', client, now, now + SESSION_SECONDS, None)];
      sessions := Prune(sessions, user, now);
      return true;
    }

    /** A login's second half; what fails after the code was accepted is rolled back with it. */
    method CompleteLogin(totp: Totp, hash: string, binding: Option<string>, code: Code, client: string,
                         token: string, now: nat)
      returns (o: Outcome, done: bool)
      modifies this
      ensures (State(), o, done) == Complete(old(State()), totp, hash, binding, code, client, token, now)
    {
      hide Verify, TokenOk, Prune, WithoutHash, FindChallenge;
      var saved := State();
      if !TokenOk(hash, 128) || !LabelOk(client) || !BindingOk(binding) {
        return Unavailable, false;
      }
      var c := FindChallenge(challenges, hash);
      if c.None? || c.value.expires <= now || c.value.binding != binding {
        return Unavailable, false;
      }
      o := VerifyLocked(totp, c.value.user, code, false, now);
      if !Accepted(o) {
        return o, false;
      }
      challenges := WithoutHash(challenges, hash);
      done := IssueLocked(c.value.user, c.value.method' + "+mfa", client, token, true, now);
      if !done {
        Restore(saved);
        o := Unavailable;
      }
    }
  }
}
