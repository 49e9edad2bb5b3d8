/**
 * The second-factor rows of one user and the statements of internal/repo/gorm/mfa.go on them. Every
 * statement there names one tenant and user, so users do not affect each other.
 */
module MfaTables {
  import opened Common

  /** A user_mfa row. */
  datatype Settings = Settings(
    secret: string, confirmed: Option<Time>, lastUsedStep: int,
    failed: nat, lockedUntil: Option<Time>, updated: Time)

  /** The user's row, and the used mark of each recovery code stored for the user. The unique index on
      (tenant_id, user_id, code_hash) makes the hash a key. */
  datatype UserMfa = UserMfa(settings: Option<Settings>, codes: map<Hash, bool>)

  predicate Confirmed(u: UserMfa) {
    u.settings.Some? && u.settings.value.confirmed.Some?
  }

  predicate Pending(u: UserMfa) {
    u.settings.Some? && u.settings.value.confirmed.None?
  }

  predicate StepFresh(u: UserMfa, step: int) {
    Confirmed(u) && u.settings.value.lastUsedStep < step
  }

  predicate CodeUnused(u: UserMfa, h: Hash) {
    h in u.codes && !u.codes[h]
  }

  predicate Distinct(hs: seq<Hash>) {
    forall i, j :: 0 <= i < j < |hs| ==> hs[i] != hs[j]
  }

  datatype Effect =
    | Nothing
    | SavePending(secret: string)
    | Confirm(step: int, issued: seq<Hash>)
    | UseStep(step: int)
    | UseCode(h: Hash)
    | RecordFailure(lockUntil: Time)
    | ReplaceCodes(issued: seq<Hash>)
    | DeleteAll

  const MAX_FAILURES := 5

  /** A failed attempt: the count goes up, and from the fifth on the row is locked. */
  function Failed(s: Settings, lockUntil: Time, now: Time): Settings {
    s.(failed := s.failed + 1,
       lockedUntil := if s.failed + 1 >= MAX_FAILURES then Some(lockUntil) else s.lockedUntil,
       updated := now)
  }

  /** A successful attempt clears the failures and the lock. */
  function Cleared(s: Settings, now: Time): Settings {
    s.(failed := 0, lockedUntil := None, updated := now)
  }

  function Unused(issued: seq<Hash>): map<Hash, bool> {
    map h | h in issued :: false
  }

  /** A repeated hash violates the unique index, and the transaction is rolled back. */
  function Replaced(u: UserMfa, issued: seq<Hash>): UserMfa {
    if Distinct(issued) then u.(codes := Unused(issued)) else u
  }

  predicate Confirmable(u: UserMfa, issued: seq<Hash>) {
    Pending(u) && Distinct(issued)
  }

  function Perform(u: UserMfa, effect: Effect, now: Time): UserMfa {
    match effect
    case Nothing => u
    case SavePending(secret) =>
      if Confirmed(u) then u else u.(settings := Some(Settings(secret, None, 0, 0, None, now)))
    case Confirm(step, issued) =>
      if Confirmable(u, issued) then
        UserMfa(Some(Cleared(u.settings.value, now).(confirmed := Some(now), lastUsedStep := step)), Unused(issued))
      else u
    case UseStep(step) =>
      if StepFresh(u, step) then u.(settings := Some(Cleared(u.settings.value, now).(lastUsedStep := step)))
      else u
    case UseCode(h) =>
      if CodeUnused(u, h) then
        UserMfa(if u.settings.Some? then Some(Cleared(u.settings.value, now)) else None, u.codes[h := true])
      else u
    case RecordFailure(lockUntil) =>
      if u.settings.Some? then u.(settings := Some(Failed(u.settings.value, lockUntil, now))) else u
    case ReplaceCodes(issued) => Replaced(u, issued)
    case DeleteAll => UserMfa(None, map[])
  }
}
