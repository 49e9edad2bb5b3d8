/**
 * The lockout, at the granularity of whole calls: each call runs alone, at one clock reading, and no storage
 * call errs. Concurrent calls can all pass the lock check before one of them is counted.
 */
module MfaLockout {
  import opened Common
  import opened Scopes
  import opened Totp
  import opened MfaTables
  import opened MfaCalls

  /** A call run to its end alone. */
  function Solo(hotp: Hotp, u: UserMfa, c: Call, now: Time): (UserMfa, Outcome)
    requires WellFormed(c)
    decreases Rank(c.pc)
  {
    if c.pc.Done? then (u, c.pc.outcome)
    else
      var e := Env(now, false);
      var (effect, pc) := Decide(hotp, u, c, e);
      StepStaysWellFormed(hotp, u, c, e);
      StepsTerminate(hotp, u, c, e);
      Solo(hotp, Perform(u, effect, now), Call(c.req, pc), now)
  }

  function Op(hotp: Hotp, u: UserMfa, req: Request, now: Time): (UserMfa, Outcome) {
    Solo(hotp, u, Call(req, Start(req)), now)
  }

  predicate Accepted(o: Outcome) {
    o.AcceptedTotp? || o.AcceptedRecoveryCode?
  }

  /** Verify tells the user whose code was not accepted: too many failures, or a wrong code. */
  predicate Rejects(hotp: Hotp, u: UserMfa, req: Request, now: Time) {
    req.Verify? && Confirmed(u) && !LockedAt(u.settings.value, now) && !Accepted(Op(hotp, u, req, now).1)
  }

  lemma SoloStep(hotp: Hotp, u: UserMfa, c: Call, now: Time, effect: Effect, pc: Pc)
    requires WellFormed(c) && !c.pc.Done? && Decide(hotp, u, c, Env(now, false)) == (effect, pc)
    ensures WellFormed(Call(c.req, pc))
    ensures Solo(hotp, u, c, now) == Solo(hotp, Perform(u, effect, now), Call(c.req, pc), now)
  {
  }

  function AfterRejection(u: UserMfa, now: Time): UserMfa
    requires u.settings.Some?
  {
    u.(settings := Some(Failed(u.settings.value, now + LOCKOUT, now)))
  }

  lemma SoloFail(hotp: Hotp, u: UserMfa, req: Request, failed: nat, now: Time)
    requires u.settings.Some?
    ensures Solo(hotp, u, Call(req, VerifyFail(failed, now)), now) == (AfterRejection(u, now), AfterFailure(failed))
  {
    SoloStep(hotp, u, Call(req, VerifyFail(failed, now)), now, RecordFailure(now + LOCKOUT), Done(AfterFailure(failed)));
  }

  /** The code was accepted and the failures are forgotten. */
  predicate Forgiven(u: UserMfa, o: Outcome) {
    Accepted(o) && u.settings.Some? && u.settings.value.failed == 0 && u.settings.value.lockedUntil.None?
  }

  lemma SoloUse(hotp: Hotp, u: UserMfa, req: Request, pc: Pc, now: Time)
    requires Confirmed(u)
    requires pc.VerifyStep? || pc.VerifyCode?
    requires pc.at == now
    ensures var (u', o) := Solo(hotp, u, Call(req, pc), now);
      if Accepted(o) then Forgiven(u', o) else u' == AfterRejection(u, now) && o == AfterFailure(pc.failed)
  {
    var (effect, next) := Decide(hotp, u, Call(req, pc), Env(now, false));
    SoloStep(hotp, u, Call(req, pc), now, effect, next);
    if next.VerifyFail? {
      SoloFail(hotp, u, req, pc.failed, now);
    }
  }

  /** What one Verify does to a confirmed user that is not locked. */
  lemma VerifyOutcome(hotp: Hotp, u: UserMfa, code: string, now: Time)
    requires Confirmed(u) && !LockedAt(u.settings.value, now)
    ensures var (u', o) := Op(hotp, u, Verify(code), now);
      if Accepted(o) then Forgiven(u', o)
      else u' == AfterRejection(u, now) && o == AfterFailure(u.settings.value.failed)
  {
    var pc := AfterVerifyRead(hotp, u.settings.value, code, now);
    SoloStep(hotp, u, Call(Verify(code), VerifyRead), now, Nothing, pc);
    if pc.VerifyFail? {
      SoloFail(hotp, u, Verify(code), u.settings.value.failed, now);
    } else {
      SoloUse(hotp, u, Verify(code), pc, now);
    }
  }

  lemma LockedOutcome(hotp: Hotp, u: UserMfa, code: string, now: Time)
    requires Confirmed(u) && LockedAt(u.settings.value, now)
    ensures Op(hotp, u, Verify(code), now) == (u, Locked)
  {
    SoloStep(hotp, u, Call(Verify(code), VerifyRead), now, Nothing, Done(Locked));
  }

  /** Verify reports a lockout exactly when it leaves the user locked. */
  lemma ReportsLockExactly(hotp: Hotp, u: UserMfa, code: string, now: Time)
    requires Confirmed(u)
    ensures var (u', o) := Op(hotp, u, Verify(code), now);
      u'.settings.Some? && (o == Locked <==> LockedAt(u'.settings.value, now))
  {
    if LockedAt(u.settings.value, now) {
      LockedOutcome(hotp, u, code, now);
    } else {
      VerifyOutcome(hotp, u, code, now);
    }
  }

  // ----- A run of calls -----

  datatype Attempt = Attempt(req: Request, now: Time)

  /** us[k + 1] is what call k makes of us[k]; the clock does not run backwards, no code is accepted and
      the second factor is not disabled. */
  ghost predicate FailingRun(hotp: Hotp, us: seq<UserMfa>, calls: seq<Attempt>) {
    && |us| == |calls| + 1
    && Confirmed(us[0]) && us[0].settings.value.failed == 0 && us[0].settings.value.lockedUntil.None?
    && (forall k :: 0 <= k < |calls| ==> us[k + 1] == Op(hotp, us[k], calls[k].req, calls[k].now).0)
    && (forall j, k :: 0 <= j < k < |calls| ==> calls[j].now <= calls[k].now)
    && (forall k :: 0 <= k < |calls| ==>
          !calls[k].req.Disable? && !Accepted(Op(hotp, us[k], calls[k].req, calls[k].now).1))
  }

  /** When the codes that were checked and rejected among the first n calls were tried. */
  ghost function Rejections(hotp: Hotp, us: seq<UserMfa>, calls: seq<Attempt>, n: nat): seq<Time>
    requires n <= |calls| < |us|
  {
    if n == 0 then []
    else
      var before := Rejections(hotp, us, calls, n - 1);
      if Rejects(hotp, us[n - 1], calls[n - 1].req, calls[n - 1].now) then before + [calls[n - 1].now] else before
  }

  /** From the fifth on, rejections are at least 15 minutes apart. */
  ghost predicate Spaced(r: seq<Time>) {
    && (forall i, j :: 0 <= i < j < |r| ==> r[i] <= r[j])
    && (forall i, j :: 4 <= i <= j < |r| ==> r[j] >= r[i] + LOCKOUT * (j - i))
  }

  /** Calls other than Verify and Disable leave a confirmed row as it is. */
  lemma OthersLeaveSettings(hotp: Hotp, u: UserMfa, req: Request, now: Time)
    requires Confirmed(u) && !req.Verify? && !req.Disable?
    ensures Op(hotp, u, req, now).0.settings == u.settings
  {
    var (effect, pc) := Decide(hotp, u, Call(req, Start(req)), Env(now, false));
    SoloStep(hotp, u, Call(req, Start(req)), now, effect, pc);
    if pc.RegenerateStore? {
      var (effect', pc') := Decide(hotp, u, Call(req, pc), Env(now, false));
      SoloStep(hotp, u, Call(req, pc), now, effect', pc');
    }
  }

  /** The row tells how many codes were rejected, and when the last of them was. */
  ghost predicate Counted(u: UserMfa, r: seq<Time>) {
    && Confirmed(u) && Spaced(r)
    && u.settings.value.failed == |r|
    && u.settings.value.lockedUntil == (if |r| >= 5 then Some(r[|r| - 1] + LOCKOUT) else None)
  }

  lemma RejectionIsCounted(u: UserMfa, r: seq<Time>, now: Time)
    requires Counted(u, r) && !LockedAt(u.settings.value, now)
    requires r != [] ==> r[|r| - 1] <= now
    ensures Counted(AfterRejection(u, now), r + [now])
  {
  }

  lemma AttemptIsCounted(hotp: Hotp, u: UserMfa, a: Attempt, r: seq<Time>)
    requires Counted(u, r) && !a.req.Disable? && !Accepted(Op(hotp, u, a.req, a.now).1)
    requires r != [] ==> r[|r| - 1] <= a.now
    ensures Counted(Op(hotp, u, a.req, a.now).0, if Rejects(hotp, u, a.req, a.now) then r + [a.now] else r)
  {
    if !a.req.Verify? {
      OthersLeaveSettings(hotp, u, a.req, a.now);
    } else if LockedAt(u.settings.value, a.now) {
      LockedOutcome(hotp, u, a.req.code, a.now);
    } else {
      VerifyOutcome(hotp, u, a.req.code, a.now);
      RejectionIsCounted(u, r, a.now);
    }
  }

  lemma {:induction false} FailuresAreCounted(hotp: Hotp, us: seq<UserMfa>, calls: seq<Attempt>, n: nat)
    requires FailingRun(hotp, us, calls) && n <= |calls|
    ensures Counted(us[n], Rejections(hotp, us, calls, n))
    ensures var r := Rejections(hotp, us, calls, n); r != [] ==> n > 0 && r[|r| - 1] <= calls[n - 1].now
  {
    if n > 0 {
      FailuresAreCounted(hotp, us, calls, n - 1);
      assert us[n - 1 + 1] == Op(hotp, us[n - 1], calls[n - 1].req, calls[n - 1].now).0;
      AttemptIsCounted(hotp, us[n - 1], calls[n - 1], Rejections(hotp, us, calls, n - 1));
    }
  }

  /**
   * However many codes are tried, the n-th rejected one, for n >= 5, comes at least 900 (n - 5) seconds after
   * the fifth. So in any T seconds at most 5 + T / 900 codes are checked and rejected.
   */
  lemma GuessBound(hotp: Hotp, us: seq<UserMfa>, calls: seq<Attempt>, i: nat, j: nat)
    requires FailingRun(hotp, us, calls)
    requires i <= j < |Rejections(hotp, us, calls, |calls|)|
    ensures var r := Rejections(hotp, us, calls, |calls|);
      && (j >= 4 ==> r[j] >= r[4] + LOCKOUT * (j - 4))
      && j - i + 1 <= 5 + (r[j] - r[i]) / LOCKOUT
  {
    FailuresAreCounted(hotp, us, calls, |calls|);
    var r := Rejections(hotp, us, calls, |calls|);
    if j >= 4 {
      var from := if i < 4 then 4 else i;
      assert r[j] >= r[from] + LOCKOUT * (j - from);
      assert r[from] >= r[i];
    }
  }
}
