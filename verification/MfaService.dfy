/**
 * The second-factor repository and service in the form of the source. Each service method is proved to run
 * the statements that MfaCalls gives for its call, whatever concurrent calls do in between.
 */
module MfaService {
  import opened Common
  import opened Scopes
  import opened Totp
  import opened MfaTables
  import opened MfaCalls
  import opened MfaRuns
  import opened MfaAlone

  datatype Owner = Owner(tenant: Id, user: Id)

  const NOBODY := UserMfa(None, map[])

  class MfaRepository {
    var users: map<Owner, UserMfa>

    constructor ()
      ensures users == map[]
    {
      users := map[];
    }

    function Of(owner: Owner): UserMfa
      reads this
    {
      if owner in users then users[owner] else NOBODY
    }

    method Get(owner: Owner) returns (settings: Option<Settings>)
      ensures settings == Of(owner).settings
    {
      return Of(owner).settings;
    }

    /** Replaces the row unless it is confirmed. */
    method SavePending(owner: Owner, secret: string, now: Time) returns (saved: bool)
      modifies this
      ensures saved <==> !Confirmed(old(Of(owner)))
      ensures users == if saved then old(users)[owner := Perform(old(Of(owner)), Effect.SavePending(secret), now)]
                       else old(users)
    {
      var u := Of(owner);
      if u.settings.Some? && u.settings.value.confirmed.Some? {
        return false;
      }
      users := users[owner := u.(settings := Some(Settings(secret, None, 0, 0, None, now)))];
      return true;
    }

    /** The transaction of Confirm; a repeated hash rolls it back. */
    method Confirm(owner: Owner, step: int, issued: seq<Hash>, now: Time) returns (r: Result<bool, ()>)
      modifies this
      ensures r.Ok? && r.value <==> Confirmable(old(Of(owner)), issued)
      ensures r.Err? <==> Pending(old(Of(owner))) && !Distinct(issued)
      ensures r.Ok? && r.value ==>
        users == old(users)[owner := Perform(old(Of(owner)), Effect.Confirm(step, issued), now)]
      ensures !(r.Ok? && r.value) ==> users == old(users)
    {
      var u := Of(owner);
      if u.settings.None? || u.settings.value.confirmed.Some? {
        return Ok(false);
      }
      if !Distinct(issued) {
        return Err(());
      }
      var s := u.settings.value.(confirmed := Some(now), lastUsedStep := step, failed := 0, lockedUntil := None,
                                 updated := now);
      users := users[owner := UserMfa(Some(s), Unused(issued))];
      return Ok(true);
    }

    /** Accepts a step only if it is later than the last one accepted. */
    method UseStep(owner: Owner, step: int, now: Time) returns (accepted: bool)
      modifies this
      ensures accepted <==> StepFresh(old(Of(owner)), step)
      ensures accepted ==> users == old(users)[owner := Perform(old(Of(owner)), Effect.UseStep(step), now)]
      ensures accepted ==> !StepFresh(Of(owner), step)
      ensures !accepted ==> users == old(users)
    {
      var u := Of(owner);
      if u.settings.None? || u.settings.value.confirmed.None? || u.settings.value.lastUsedStep >= step {
        return false;
      }
      var s := u.settings.value.(lastUsedStep := step, failed := 0, lockedUntil := None, updated := now);
      users := users[owner := u.(settings := Some(s))];
      return true;
    }

    /** Accepts a recovery code only once. */
    method UseRecoveryCode(owner: Owner, h: Hash, now: Time) returns (used: bool)
      modifies this
      ensures used <==> CodeUnused(old(Of(owner)), h)
      ensures used ==> users == old(users)[owner := Perform(old(Of(owner)), UseCode(h), now)]
      ensures used ==> !CodeUnused(Of(owner), h)
      ensures !used ==> users == old(users)
    {
      var u := Of(owner);
      if h !in u.codes || u.codes[h] {
        return false;
      }
      var settings := u.settings;
      if settings.Some? {
        settings := Some(settings.value.(failed := 0, lockedUntil := None, updated := now));
      }
      users := users[owner := UserMfa(settings, u.codes[h := true])];
      return true;
    }

    method RecordFailure(owner: Owner, lockUntil: Time, now: Time)
      modifies this
      ensures Of(owner) == Perform(old(Of(owner)), Effect.RecordFailure(lockUntil), now)
      ensures forall other :: other != owner ==> Of(other) == old(Of(other))
    {
      var u := Of(owner);
      if u.settings.Some? {
        var s := u.settings.value;
        if s.failed + 1 >= MAX_FAILURES {
          s := s.(lockedUntil := Some(lockUntil));
        }
        users := users[owner := u.(settings := Some(s.(failed := s.failed + 1, updated := now)))];
      }
    }

    method ReplaceRecoveryCodes(owner: Owner, issued: seq<Hash>) returns (ok: bool)
      modifies this
      ensures ok <==> Distinct(issued)
      ensures ok ==> users == old(users)[owner := Replaced(old(Of(owner)), issued)]
      ensures !ok ==> users == old(users)
    {
      if !Distinct(issued) {
        return false;
      }
      users := users[owner := Of(owner).(codes := Unused(issued))];
      return true;
    }

    method Delete(owner: Owner)
      modifies this
      ensures users == old(users) - {owner}
      ensures Of(owner) == NOBODY
    {
      users := users - {owner};
    }
  }

  // ----- The service -----

  class MfaServiceImpl {
    const mfa: MfaRepository
    const hotp: Hotp

    constructor (mfa: MfaRepository, hotp: Hotp)
      ensures this.mfa == mfa && this.hotp == hotp
    {
      this.mfa, this.hotp := mfa, hotp;
    }

    method Interleave(owner: Owner, w: World, k: nat)
      modifies mfa
      ensures mfa.Of(owner) == w.others(k, old(mfa.Of(owner)))
    {
      mfa.users := mfa.users[owner := w.others(k, mfa.Of(owner))];
    }

    /** Verify up to the use of the code. */
    method VerifySecondFactor(owner: Owner, code: string, w: World) returns (out: Outcome)
      modifies mfa
      ensures Run(hotp, old(mfa.Of(owner)), Call(Verify(code), Start(Verify(code))), w, 0) == (mfa.Of(owner), out)
      ensures Undisturbed(w) ==> VerifiedAlone(hotp, old(mfa.Of(owner)), code, w.env(0).now, mfa.Of(owner), out)
    {
      if Undisturbed(w) {
        VerifyAlone(hotp, mfa.Of(owner), code, w);
      }
      RunStep(hotp, mfa.Of(owner), Call(Verify(code), VerifyRead), w, 0);
      Interleave(owner, w, 0);
      var settings := mfa.Get(owner);
      if w.env(0).fails {
        return Errs;
      }
      if settings.None? || settings.value.confirmed.None? {
        return NotEnabled;
      }
      var now := w.env(0).now;
      var s := settings.value;
      if s.lockedUntil.Some? && now < s.lockedUntil.value {
        return Locked;
      }
      var totp := LooksLikeTotp(code);
      if totp {
        var step, ok := Totp.Verify(hotp, s.secret, code, now);
        if !ok {
          out := CountFailure(owner, Verify(code), s.failed, now, w, 1);
          return;
        }
        out := CheckTotp(owner, Verify(code), step, s.failed, now, w);
      } else {
        out := CheckRecoveryCode(owner, Verify(code), HashRecoveryCode(code), s.failed, now, w);
      }
    }

    method CheckTotp(owner: Owner, ghost req: Request, step: int, failed: nat, at: Time, w: World)
      returns (out: Outcome)
      modifies mfa
      ensures Run(hotp, old(mfa.Of(owner)), Call(req, VerifyStep(step, failed, at)), w, 1) == (mfa.Of(owner), out)
    {
      RunStep(hotp, mfa.Of(owner), Call(req, VerifyStep(step, failed, at)), w, 1);
      Interleave(owner, w, 1);
      if w.env(1).fails {
        return Errs;
      }
      var accepted := mfa.UseStep(owner, step, w.env(1).now);
      if accepted {
        return AcceptedTotp;
      }
      out := CountFailure(owner, req, failed, at, w, 2);
    }

    method CheckRecoveryCode(owner: Owner, ghost req: Request, h: Hash, failed: nat, at: Time, w: World)
      returns (out: Outcome)
      modifies mfa
      ensures Run(hotp, old(mfa.Of(owner)), Call(req, VerifyCode(h, failed, at)), w, 1) == (mfa.Of(owner), out)
    {
      RunStep(hotp, mfa.Of(owner), Call(req, VerifyCode(h, failed, at)), w, 1);
      Interleave(owner, w, 1);
      if w.env(1).fails {
        return Errs;
      }
      var used := mfa.UseRecoveryCode(owner, h, w.env(1).now);
      if used {
        return AcceptedRecoveryCode;
      }
      out := CountFailure(owner, req, failed, at, w, 2);
    }

    /** Verify after a wrong code. */
    method CountFailure(owner: Owner, ghost req: Request, failed: nat, at: Time, w: World, k: nat)
      returns (out: Outcome)
      modifies mfa
      ensures Run(hotp, old(mfa.Of(owner)), Call(req, VerifyFail(failed, at)), w, k) == (mfa.Of(owner), out)
    {
      RunStep(hotp, mfa.Of(owner), Call(req, VerifyFail(failed, at)), w, k);
      Interleave(owner, w, k);
      if w.env(k).fails {
        return Errs;
      }
      mfa.RecordFailure(owner, at + LOCKOUT, w.env(k).now);
      if failed + 1 >= MAX_FAILURES {
        return Locked;
      }
      return InvalidCode;
    }

    method BeginEnrollment(owner: Owner, secret: string, w: World) returns (out: Outcome)
      modifies mfa
      ensures var req := BeginTotpEnrollment(secret);
        Run(hotp, old(mfa.Of(owner)), Call(req, Start(req)), w, 0) == (mfa.Of(owner), out)
      ensures Undisturbed(w) ==> BegunAlone(old(mfa.Of(owner)), secret, w.env(0).now, mfa.Of(owner), out)
    {
      if Undisturbed(w) {
        BeginAlone(hotp, mfa.Of(owner), secret, w);
      }
      RunStep(hotp, mfa.Of(owner), Call(BeginTotpEnrollment(secret), EnrollSave), w, 0);
      Interleave(owner, w, 0);
      if w.env(0).fails {
        return Errs;
      }
      var saved := mfa.SavePending(owner, secret, w.env(0).now);
      return if saved then Succeeded else AlreadyEnabled;
    }

    method ConfirmEnrollment(owner: Owner, code: string, issued: seq<Hash>, w: World) returns (out: Outcome)
      modifies mfa
      ensures var req := ConfirmTotpEnrollment(code, issued);
        Run(hotp, old(mfa.Of(owner)), Call(req, Start(req)), w, 0) == (mfa.Of(owner), out)
      ensures Undisturbed(w) ==> ConfirmedAlone(hotp, old(mfa.Of(owner)), code, issued, w, mfa.Of(owner), out)
    {
      if Undisturbed(w) {
        ConfirmAlone(hotp, mfa.Of(owner), code, issued, w);
      }
      ghost var req := ConfirmTotpEnrollment(code, issued);
      RunStep(hotp, mfa.Of(owner), Call(req, ConfirmRead), w, 0);
      Interleave(owner, w, 0);
      var settings := mfa.Get(owner);
      var now := w.env(0).now;
      if w.env(0).fails {
        return Errs;
      }
      if settings.None? {
        return NotEnrolling;
      }
      var s := settings.value;
      if s.confirmed.Some? {
        return AlreadyEnabled;
      }
      if now - s.updated > ENROLLMENT_WINDOW {
        return NotEnrolling;
      }
      var step, ok := Totp.Verify(hotp, s.secret, code, now);
      if !ok {
        return InvalidCode;
      }
      out := StoreConfirmation(owner, req, step, now, issued, w);
    }

    method StoreConfirmation(owner: Owner, ghost req: Request, step: int, at: Time, issued: seq<Hash>, w: World)
      returns (out: Outcome)
      requires req.ConfirmTotpEnrollment? && req.issued == issued
      modifies mfa
      ensures Run(hotp, old(mfa.Of(owner)), Call(req, ConfirmStore(step, at)), w, 1) == (mfa.Of(owner), out)
    {
      RunStep(hotp, mfa.Of(owner), Call(req, ConfirmStore(step, at)), w, 1);
      Interleave(owner, w, 1);
      if w.env(1).fails {
        return Errs;
      }
      var stored := mfa.Confirm(owner, step, issued, w.env(1).now);
      if stored.Err? {
        return Errs;
      }
      if !stored.value {
        return NotEnrolling;
      }
      out := EndTheSessions(owner, req, w, 2);
    }

    /** Sessions opened with the password alone end when the second factor changes. */
    method EndTheSessions(owner: Owner, ghost req: Request, w: World, k: nat) returns (out: Outcome)
      modifies mfa
      ensures Run(hotp, old(mfa.Of(owner)), Call(req, EndSessions), w, k) == (mfa.Of(owner), out)
    {
      RunStep(hotp, mfa.Of(owner), Call(req, EndSessions), w, k);
      Interleave(owner, w, k);
      return if w.env(k).fails then Errs else Succeeded;
    }

    method Regenerate(owner: Owner, issued: seq<Hash>, w: World) returns (out: Outcome)
      modifies mfa
      ensures var req := RegenerateRecoveryCodes(issued);
        Run(hotp, old(mfa.Of(owner)), Call(req, Start(req)), w, 0) == (mfa.Of(owner), out)
      ensures Undisturbed(w) ==> RegeneratedAlone(old(mfa.Of(owner)), issued, mfa.Of(owner), out)
    {
      if Undisturbed(w) {
        RegenerateAlone(hotp, mfa.Of(owner), issued, w);
      }
      ghost var req := RegenerateRecoveryCodes(issued);
      RunStep(hotp, mfa.Of(owner), Call(req, RegenerateRead), w, 0);
      Interleave(owner, w, 0);
      var settings := mfa.Get(owner);
      if w.env(0).fails {
        return Errs;
      }
      if settings.None? || settings.value.confirmed.None? {
        return NotEnabled;
      }
      RunStep(hotp, mfa.Of(owner), Call(req, RegenerateStore), w, 1);
      Interleave(owner, w, 1);
      if w.env(1).fails {
        return Errs;
      }
      var ok := mfa.ReplaceRecoveryCodes(owner, issued);
      return if ok then Succeeded else Errs;
    }

    method DisableSecondFactor(owner: Owner, w: World) returns (out: Outcome)
      modifies mfa
      ensures Run(hotp, old(mfa.Of(owner)), Call(Disable, Start(Disable)), w, 0) == (mfa.Of(owner), out)
      ensures Undisturbed(w) ==> DisabledAlone(old(mfa.Of(owner)), mfa.Of(owner), out)
    {
      if Undisturbed(w) {
        DisableAlone(hotp, mfa.Of(owner), w);
      }
      RunStep(hotp, mfa.Of(owner), Call(Disable, DisableRead), w, 0);
      Interleave(owner, w, 0);
      var settings := mfa.Get(owner);
      if w.env(0).fails {
        return Errs;
      }
      if settings.None? {
        return NotEnabled;
      }
      RunStep(hotp, mfa.Of(owner), Call(Disable, DisableDelete), w, 1);
      Interleave(owner, w, 1);
      if w.env(1).fails {
        return Errs;
      }
      mfa.Delete(owner);
      out := EndTheSessions(owner, Disable, w, 2);
    }
  }
}
