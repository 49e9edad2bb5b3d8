/**
 * What one second-factor call does from beginning to end when no other call runs and no statement errs, told by
 * the user's rows before it and after it.
 */
module MfaAlone {
  import opened Common
  import opened Scopes
  import opened Totp
  import opened MfaTables
  import opened MfaCalls
  import opened MfaRuns

  /** The row is s up to the time of its last update. */
  predicate Becomes(u: UserMfa, s: Settings) {
    u.settings.Some? && u.settings.value == s.(updated := u.settings.value.updated)
  }

  /** The step is the earliest of the three around now whose code was entered. */
  ghost predicate IsStepOf(hotp: Hotp, secret: string, code: string, now: Time, step: int) {
    && |TrimSpace(code)| == 6
    && TimeStep(now) - 1 <= step <= TimeStep(now) + 1 && hotp(secret, step) == TrimSpace(code)
    && forall x :: TimeStep(now) - 1 <= x < step ==> hotp(secret, x) != TrimSpace(code)
  }

  /** The entered text is six digits, and the code of a step that is later than every step used before. */
  ghost predicate FreshTotp(hotp: Hotp, s: Settings, code: string, now: Time) {
    TotpShaped(TrimSpace(code)) && exists step :: IsStepOf(hotp, s.secret, code, now, step) && s.lastUsedStep < step
  }

  predicate FreshRecoveryCode(u: UserMfa, code: string) {
    !TotpShaped(TrimSpace(code)) && HashRecoveryCode(code) in u.codes && !u.codes[HashRecoveryCode(code)]
  }

  /**
   * Verify alone: accepted exactly are a fresh code of the secret and an unused recovery code, and both forget
   * the failures; every other code counts as one, and from the fifth on locks for 15 minutes. Without a confirmed
   * row, or while it is locked, nothing is checked or changed.
   */
  ghost predicate VerifiedAlone(hotp: Hotp, u: UserMfa, code: string, now: Time, u': UserMfa, out: Outcome) {
    if u.settings.None? || u.settings.value.confirmed.None? then u' == u && out == NotEnabled
    else
      var s := u.settings.value;
      if s.lockedUntil.Some? && now < s.lockedUntil.value then u' == u && out == Locked
      else
        && (out == AcceptedTotp <==> FreshTotp(hotp, s, code, now))
        && (out == AcceptedRecoveryCode <==> FreshRecoveryCode(u, code))
        && (out == AcceptedTotp ==>
              && u'.codes == u.codes
              && (exists step :: IsStepOf(hotp, s.secret, code, now, step) &&
                    Becomes(u', s.(lastUsedStep := step, failed := 0, lockedUntil := None))))
        && (out == AcceptedRecoveryCode ==>
              && Becomes(u', s.(failed := 0, lockedUntil := None))
              && u'.codes == u.codes[HashRecoveryCode(code) := true])
        && (out != AcceptedTotp && out != AcceptedRecoveryCode ==>
              var n := s.failed + 1;
              && out == (if n >= 5 then Locked else InvalidCode) && u'.codes == u.codes
              && Becomes(u', s.(failed := n, lockedUntil := if n >= 5 then Some(now + 900) else s.lockedUntil)))
  }

  lemma MatchIsStep(hotp: Hotp, secret: string, code: string, now: Time)
    ensures var m := MatchingStep(hotp, secret, code, now);
      && (m.Some? ==> IsStepOf(hotp, secret, code, now, m.value))
      && (forall step :: IsStepOf(hotp, secret, code, now, step) ==> m == Some(step))
  {
  }

  lemma FailureAlone(hotp: Hotp, u: UserMfa, req: Request, at: Time, w: World, k: nat)
    requires Undisturbed(w) && u.settings.Some?
    ensures var s := u.settings.value;
      var (u', out) := Run(hotp, u, Call(req, VerifyFail(s.failed, at)), w, k);
      var n := s.failed + 1;
      && out == (if n >= 5 then Locked else InvalidCode) && u'.codes == u.codes
      && Becomes(u', s.(failed := n, lockedUntil := if n >= 5 then Some(at + 900) else s.lockedUntil))
  {
    assert Quiet(w, k);
    RunStep(hotp, u, Call(req, VerifyFail(u.settings.value.failed, at)), w, k);
  }

  lemma TotpAlone(hotp: Hotp, u: UserMfa, code: string, step: int, now: Time, w: World)
    requires Undisturbed(w) && u.settings.Some? && u.settings.value.confirmed.Some?
    requires TotpShaped(TrimSpace(code)) && IsStepOf(hotp, u.settings.value.secret, code, now, step)
    requires u.settings.value.lockedUntil.None? || u.settings.value.lockedUntil.value <= now
    ensures var pc := VerifyStep(step, u.settings.value.failed, now);
      var (u', out) := Run(hotp, u, Call(Verify(code), pc), w, 1); VerifiedAlone(hotp, u, code, now, u', out)
  {
    assert Quiet(w, 1);
    var s := u.settings.value;
    RunStep(hotp, u, Call(Verify(code), VerifyStep(step, s.failed, now)), w, 1);
    MatchIsStep(hotp, s.secret, code, now);
    if s.lastUsedStep < step {
      assert FreshTotp(hotp, s, code, now);
    } else {
      FailureAlone(hotp, u, Verify(code), now, w, 2);
    }
  }

  lemma RecoveryAlone(hotp: Hotp, u: UserMfa, code: string, now: Time, w: World)
    requires Undisturbed(w) && u.settings.Some? && u.settings.value.confirmed.Some? && !TotpShaped(TrimSpace(code))
    requires u.settings.value.lockedUntil.None? || u.settings.value.lockedUntil.value <= now
    ensures var pc := VerifyCode(HashRecoveryCode(code), u.settings.value.failed, now);
      var (u', out) := Run(hotp, u, Call(Verify(code), pc), w, 1); VerifiedAlone(hotp, u, code, now, u', out)
  {
    assert Quiet(w, 1);
    var s := u.settings.value;
    RunStep(hotp, u, Call(Verify(code), VerifyCode(HashRecoveryCode(code), s.failed, now)), w, 1);
    if !FreshRecoveryCode(u, code) {
      FailureAlone(hotp, u, Verify(code), now, w, 2);
    }
  }

  lemma VerifyAlone(hotp: Hotp, u: UserMfa, code: string, w: World)
    requires Undisturbed(w)
    ensures var (u', out) := Run(hotp, u, Call(Verify(code), Start(Verify(code))), w, 0);
      VerifiedAlone(hotp, u, code, w.env(0).now, u', out)
  {
    assert Quiet(w, 0);
    RunStep(hotp, u, Call(Verify(code), VerifyRead), w, 0);
    var now := w.env(0).now;
    if u.settings.Some? && u.settings.value.confirmed.Some? {
      var s := u.settings.value;
      if s.lockedUntil.None? || s.lockedUntil.value <= now {
        if TotpShaped(TrimSpace(code)) {
          MatchIsStep(hotp, s.secret, code, now);
          var m := MatchingStep(hotp, s.secret, code, now);
          if m.Some? {
            TotpAlone(hotp, u, code, m.value, now, w);
          } else {
            FailureAlone(hotp, u, Verify(code), now, w, 1);
          }
        } else {
          RecoveryAlone(hotp, u, code, now, w);
        }
      }
    }
  }

  // ----- Enrolment -----

  /** Starting an enrolment alone: a pending row with the new secret, unless one is confirmed. */
  ghost predicate BegunAlone(u: UserMfa, secret: string, now: Time, u': UserMfa, out: Outcome) {
    if u.settings.Some? && u.settings.value.confirmed.Some? then u' == u && out == AlreadyEnabled
    else u' == UserMfa(Some(Settings(secret, None, 0, 0, None, now)), u.codes) && out == Succeeded
  }

  lemma BeginAlone(hotp: Hotp, u: UserMfa, secret: string, w: World)
    requires Undisturbed(w)
    ensures var req := BeginTotpEnrollment(secret);
      var (u', out) := Run(hotp, u, Call(req, Start(req)), w, 0); BegunAlone(u, secret, w.env(0).now, u', out)
  {
    assert Quiet(w, 0);
    RunStep(hotp, u, Call(BeginTotpEnrollment(secret), EnrollSave), w, 0);
  }

  /** There is a pending row, which is at most 15 minutes old. */
  predicate Enrolling(u: UserMfa, now: Time) {
    u.settings.Some? && u.settings.value.confirmed.None? && now - u.settings.value.updated <= 900
  }

  predicate AllDifferent(hs: seq<Hash>) {
    forall i, j :: 0 <= i < j < |hs| ==> hs[i] != hs[j]
  }

  /**
   * Confirming an enrolment alone succeeds exactly within 15 minutes and with a code of the pending secret around
   * now; that code cannot be used again, and exactly the recovery codes issued are stored, all unused.
   */
  ghost predicate ConfirmedAlone(hotp: Hotp, u: UserMfa, code: string, issued: seq<Hash>, w: World, u': UserMfa,
                                 out: Outcome) {
    var now := w.env(0).now;
    && (out == AlreadyEnabled <==> u.settings.Some? && u.settings.value.confirmed.Some?)
    && (out == NotEnrolling <==>
          u.settings.None? || (u.settings.value.confirmed.None? && now - u.settings.value.updated > 900))
    && (out == InvalidCode <==>
          Enrolling(u, now) && forall step :: !IsStepOf(hotp, u.settings.value.secret, code, now, step))
    && (out == Succeeded <==>
          Enrolling(u, now) && AllDifferent(issued) &&
          exists step :: IsStepOf(hotp, u.settings.value.secret, code, now, step))
    && (out == Succeeded ==>
          && (exists step :: IsStepOf(hotp, u.settings.value.secret, code, now, step) &&
                Becomes(u', u.settings.value.(confirmed := Some(w.env(1).now), lastUsedStep := step, failed := 0,
                                              lockedUntil := None)))
          && (forall h :: h in u'.codes <==> h in issued) && (forall h :: h in u'.codes ==> !u'.codes[h]))
    && (out != Succeeded ==> u' == u)
  }

  lemma StoreAlone(hotp: Hotp, u: UserMfa, req: Request, step: int, at: Time, w: World)
    requires Undisturbed(w) && req.ConfirmTotpEnrollment? && u.settings.Some? && u.settings.value.confirmed.None?
    ensures var (u', out) := Run(hotp, u, Call(req, ConfirmStore(step, at)), w, 1);
      var s' := u.settings.value.(confirmed := Some(w.env(1).now), lastUsedStep := step, failed := 0,
                                  lockedUntil := None);
      && out == (if AllDifferent(req.issued) then Succeeded else Errs)
      && (!AllDifferent(req.issued) ==> u' == u)
      && (AllDifferent(req.issued) ==>
            && Becomes(u', s')
            && (forall h :: h in u'.codes <==> h in req.issued) && (forall h :: h in u'.codes ==> !u'.codes[h]))
  {
    assert Quiet(w, 1) && Quiet(w, 2);
    RunStep(hotp, u, Call(req, ConfirmStore(step, at)), w, 1);
    if AllDifferent(req.issued) {
      RunStep(hotp, Perform(u, Confirm(step, req.issued), w.env(1).now), Call(req, EndSessions), w, 2);
    }
  }

  lemma ConfirmAlone(hotp: Hotp, u: UserMfa, code: string, issued: seq<Hash>, w: World)
    requires Undisturbed(w)
    ensures var req := ConfirmTotpEnrollment(code, issued);
      var (u', out) := Run(hotp, u, Call(req, Start(req)), w, 0); ConfirmedAlone(hotp, u, code, issued, w, u', out)
  {
    assert Quiet(w, 0);
    var req, now := ConfirmTotpEnrollment(code, issued), w.env(0).now;
    RunStep(hotp, u, Call(req, ConfirmRead), w, 0);
    if Enrolling(u, now) {
      MatchIsStep(hotp, u.settings.value.secret, code, now);
      var m := MatchingStep(hotp, u.settings.value.secret, code, now);
      if m.Some? {
        StoreAlone(hotp, u, req, m.value, now, w);
      }
    }
  }

  // ----- Recovery codes and the end -----

  /** Replacing the recovery codes alone: with a confirmed row, exactly the new codes are stored, all unused. */
  ghost predicate RegeneratedAlone(u: UserMfa, issued: seq<Hash>, u': UserMfa, out: Outcome) {
    if u.settings.None? || u.settings.value.confirmed.None? then u' == u && out == NotEnabled
    else if !AllDifferent(issued) then u' == u && out == Errs
    else
      && out == Succeeded && u'.settings == u.settings
      && (forall h :: h in u'.codes <==> h in issued) && (forall h :: h in u'.codes ==> !u'.codes[h])
  }

  lemma RegenerateAlone(hotp: Hotp, u: UserMfa, issued: seq<Hash>, w: World)
    requires Undisturbed(w)
    ensures var req := RegenerateRecoveryCodes(issued);
      var (u', out) := Run(hotp, u, Call(req, Start(req)), w, 0); RegeneratedAlone(u, issued, u', out)
  {
    assert Quiet(w, 0) && Quiet(w, 1);
    RunStep(hotp, u, Call(RegenerateRecoveryCodes(issued), RegenerateRead), w, 0);
    if u.settings.Some? && u.settings.value.confirmed.Some? {
      RunStep(hotp, u, Call(RegenerateRecoveryCodes(issued), RegenerateStore), w, 1);
    }
  }

  /** Disabling alone: no row and no recovery code is left. */
  ghost predicate DisabledAlone(u: UserMfa, u': UserMfa, out: Outcome) {
    if u.settings.None? then u' == u && out == NotEnabled
    else u'.settings.None? && u'.codes == map[] && out == Succeeded
  }

  lemma DisableAlone(hotp: Hotp, u: UserMfa, w: World)
    requires Undisturbed(w)
    ensures var (u', out) := Run(hotp, u, Call(Disable, Start(Disable)), w, 0); DisabledAlone(u, u', out)
  {
    assert Quiet(w, 0) && Quiet(w, 1) && Quiet(w, 2);
    RunStep(hotp, u, Call(Disable, DisableRead), w, 0);
    if u.settings.Some? {
      RunStep(hotp, u, Call(Disable, DisableDelete), w, 1);
      RunStep(hotp, UserMfa(None, map[]), Call(Disable, EndSessions), w, 2);
    }
  }
}
