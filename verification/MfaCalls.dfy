/** The calls of internal/services/mfa_service_impl.go as programs whose steps are single statements. */
module MfaCalls {
  import opened Common
  import opened Scopes
  import opened Totp
  import opened MfaTables

  const LOCKOUT := 900
  const ENROLLMENT_WINDOW := 900

  /** Secrets and recovery codes are drawn by the call; the codes are given by their hashes. */
  datatype Request =
    | BeginTotpEnrollment(secret: string)
    | ConfirmTotpEnrollment(code: string, issued: seq<Hash>)
    | Verify(code: string)
    | RegenerateRecoveryCodes(issued: seq<Hash>)
    | Disable

  datatype Outcome =
    | AcceptedTotp
    | AcceptedRecoveryCode
    | Locked
    | InvalidCode
    | NotEnabled
    | NotEnrolling
    | AlreadyEnabled
    | Succeeded
    | Errs

  datatype Pc =
    | EnrollSave
    | ConfirmRead
    | ConfirmStore(step: int, at: Time)
    | VerifyRead
    | VerifyStep(step: int, failed: nat, at: Time)
    | VerifyCode(h: Hash, failed: nat, at: Time)
    | VerifyFail(failed: nat, at: Time)
    | RegenerateRead
    | RegenerateStore
    | DisableRead
    | DisableDelete
    | EndSessions
    | Done(outcome: Outcome)

  datatype Call = Call(req: Request, pc: Pc)

  /** The clock, and whether the storage call (or key, or random source) errs. */
  datatype Env = Env(now: Time, fails: bool)

  function Start(req: Request): Pc {
    match req
    case BeginTotpEnrollment(_) => EnrollSave
    case ConfirmTotpEnrollment(_, _) => ConfirmRead
    case Verify(_) => VerifyRead
    case RegenerateRecoveryCodes(_) => RegenerateRead
    case Disable => DisableRead
  }

  predicate LockedAt(s: Settings, now: Time) {
    s.lockedUntil.Some? && now < s.lockedUntil.value
  }

  /** Verify up to the statement that uses the code. */
  function AfterVerifyRead(hotp: Hotp, s: Settings, code: string, now: Time): (pc: Pc)
    ensures pc.Done? || pc.VerifyFail? || pc.VerifyStep? || pc.VerifyCode?
  {
    if s.confirmed.None? then Done(NotEnabled)
    else if LockedAt(s, now) then Done(Locked)
    else if TotpShaped(TrimSpace(code)) then
      var step := MatchingStep(hotp, s.secret, code, now);
      if step.None? then VerifyFail(s.failed, now) else VerifyStep(step.value, s.failed, now)
    else VerifyCode(HashRecoveryCode(code), s.failed, now)
  }

  function AfterConfirmRead(hotp: Hotp, s: Settings, code: string, now: Time): (pc: Pc)
    ensures pc.Done? || pc.ConfirmStore?
  {
    if s.confirmed.Some? then Done(AlreadyEnabled)
    else if now - s.updated > ENROLLMENT_WINDOW then Done(NotEnrolling)
    else
      var step := MatchingStep(hotp, s.secret, code, now);
      if step.None? then Done(InvalidCode) else ConfirmStore(step.value, now)
  }

  function AfterFailure(failed: nat): Outcome {
    if failed + 1 >= MAX_FAILURES then Locked else InvalidCode
  }

  /** The statement a call runs next on u, and where the call is after it. */
  function Decide(hotp: Hotp, u: UserMfa, c: Call, e: Env): (Effect, Pc)
    requires WellFormed(c)
  {
    match c.pc
    case EnrollSave =>
      if e.fails then (Nothing, Done(Errs))
      else (SavePending(c.req.secret), Done(if Confirmed(u) then AlreadyEnabled else Succeeded))
    case ConfirmRead =>
      if e.fails then (Nothing, Done(Errs))
      else if u.settings.None? then (Nothing, Done(NotEnrolling))
      else (Nothing, AfterConfirmRead(hotp, u.settings.value, c.req.code, e.now))
    case ConfirmStore(step, _) =>
      if e.fails || (Pending(u) && !Distinct(c.req.issued)) then (Nothing, Done(Errs))
      else (Confirm(step, c.req.issued), if Pending(u) then EndSessions else Done(NotEnrolling))
    case VerifyRead =>
      if e.fails then (Nothing, Done(Errs))
      else if u.settings.None? then (Nothing, Done(NotEnabled))
      else (Nothing, AfterVerifyRead(hotp, u.settings.value, c.req.code, e.now))
    case VerifyStep(step, failed, at) =>
      if e.fails then (Nothing, Done(Errs))
      else (UseStep(step), if StepFresh(u, step) then Done(AcceptedTotp) else VerifyFail(failed, at))
    case VerifyCode(h, failed, at) =>
      if e.fails then (Nothing, Done(Errs))
      else (UseCode(h), if CodeUnused(u, h) then Done(AcceptedRecoveryCode) else VerifyFail(failed, at))
    case VerifyFail(failed, at) =>
      if e.fails then (Nothing, Done(Errs)) else (RecordFailure(at + LOCKOUT), Done(AfterFailure(failed)))
    case RegenerateRead =>
      if e.fails then (Nothing, Done(Errs))
      else (Nothing, if Confirmed(u) then RegenerateStore else Done(NotEnabled))
    case RegenerateStore =>
      if e.fails || !Distinct(c.req.issued) then (Nothing, Done(Errs))
      else (ReplaceCodes(c.req.issued), Done(Succeeded))
    case DisableRead =>
      if e.fails then (Nothing, Done(Errs))
      else (Nothing, if u.settings.Some? then DisableDelete else Done(NotEnabled))
    case DisableDelete => if e.fails then (Nothing, Done(Errs)) else (DeleteAll, EndSessions)
    case EndSessions => (Nothing, Done(if e.fails then Errs else Succeeded))
    case Done(_) => (Nothing, c.pc)
  }

  predicate WellFormed(c: Call) {
    match c.pc
    case EnrollSave => c.req.BeginTotpEnrollment?
    case ConfirmRead => c.req.ConfirmTotpEnrollment?
    case ConfirmStore(_, _) => c.req.ConfirmTotpEnrollment?
    case VerifyRead => c.req.Verify?
    case RegenerateRead => c.req.RegenerateRecoveryCodes?
    case RegenerateStore => c.req.RegenerateRecoveryCodes?
    case _ => true
  }

  function Rank(pc: Pc): nat {
    match pc
    case EnrollSave => 1
    case ConfirmRead => 3
    case ConfirmStore(_, _) => 2
    case VerifyRead => 3
    case VerifyStep(_, _, _) => 2
    case VerifyCode(_, _, _) => 2
    case VerifyFail(_, _) => 1
    case RegenerateRead => 2
    case RegenerateStore => 1
    case DisableRead => 3
    case DisableDelete => 2
    case EndSessions => 1
    case Done(_) => 0
  }

  lemma StepStaysWellFormed(hotp: Hotp, u: UserMfa, c: Call, e: Env)
    requires WellFormed(c)
    ensures WellFormed(Call(c.req, Decide(hotp, u, c, e).1))
  {
  }

  /** Every call runs at most three statements. */
  lemma StepsTerminate(hotp: Hotp, u: UserMfa, c: Call, e: Env)
    requires WellFormed(c) && !c.pc.Done?
    ensures Rank(Decide(hotp, u, c, e).1) < Rank(c.pc) <= 3
  {
  }
}
