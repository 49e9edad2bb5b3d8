/**
 * Password resets at the granularity of whole calls: RequestPasswordReset, ResetPassword and
 * revokeUserCredentials of internal/services/user_service_impl.go, and the password reset repository of
 * internal/repo/gorm/email.go.
 */
module PasswordResets {
  import opened Common

  datatype Owner = Owner(tenant: Id, user: Id)

  /** A password_resets row, keyed by the hash of its token. */
  datatype Reset = Reset(owner: Owner, created: Time, expires: Time, used: bool)

  type Resets = map<Hash, Reset>

  datatype Status = Active | PendingVerification | Locked | Suspended

  /** The fields of a user that a reset reads or writes. */
  datatype User = User(password: string, failedLogins: nat, status: Status, lockedUntil: Option<Time>)

  datatype Db = Db(
    resets: Resets, users: map<Owner, User>, sessions: map<Hash, Owner>,
    access: map<Hash, Owner>, refresh: map<Hash, Owner>)

  datatype Error = TooShort | InvalidCode | Expired | NotFound | UserSuspended | Errs

  const MAX_PER_HOUR := 3
  const HOUR := 3600
  const DAY := 24 * HOUR
  const RESET_DURATION := 3600
  const MIN_PASSWORD_LENGTH := 8

  // ----- Statements -----

  function CreatedSince(resets: Resets, o: Owner, since: Time): set<Hash> {
    set h | h in resets && resets[h].owner == o && resets[h].created > since
  }

  function CountSince(resets: Resets, o: Owner, since: Time): nat {
    |CreatedSince(resets, o, since)|
  }

  /** RevokeUnusedByUserID: marks every unused reset of the user used. */
  function UnusedRevoked(resets: Resets, o: Owner): Resets {
    map h | h in resets :: if resets[h].owner == o then resets[h].(used := true) else resets[h]
  }

  /** MarkUsed */
  function MarkedUsed(resets: Resets, h: Hash): Resets
    requires h in resets
  {
    resets[h := resets[h].(used := true)]
  }

  /** DeleteExpired, which keeps rows that are less than a day old. */
  function Cleaned(resets: Resets, now: Time): Resets {
    Keeping(resets, (r: Reset) => !(r.expires < now && r.created < now - DAY))
  }

  function WithoutOwner(rows: map<Hash, Owner>, o: Owner): map<Hash, Owner> {
    Keeping(rows, (x: Owner) => x != o)
  }

  /** Cleanup never changes what a request counts. */
  lemma CleanupKeepsCounts(resets: Resets, o: Owner, now: Time, since: Time)
    requires since >= now - DAY
    ensures CountSince(Cleaned(resets, now), o, since) == CountSince(resets, o, since)
  {
    assert CreatedSince(Cleaned(resets, now), o, since) == CreatedSince(resets, o, since);
  }

  // ----- RequestPasswordReset -----

  /** What fails on the way, if anything; a step after the failing one does not run. */
  datatype RequestFault = NoFault | BeforeRevoke | AtCreate | AtEmail

  /** The clock at the count and at the insert, the hash of the new random token, and what fails. */
  datatype RequestEnv = RequestEnv(countedAt: Time, createdAt: Time, token: Hash, fault: RequestFault)

  /** The request is answered without a reset: unknown or suspended user, or too many requests. */
  predicate Ignored(db: Db, o: Option<Owner>, e: RequestEnv) {
    || o.None? || o.value !in db.users || db.users[o.value].status == Suspended
    || CountSince(db.resets, o.value, e.countedAt - HOUR) >= MAX_PER_HOUR
  }

  /** The tables after a request; owner is the user with the given email address. */
  function Requested(db: Db, o: Option<Owner>, e: RequestEnv): (Db, Option<Error>) {
    if Ignored(db, o, e) then (db, None)
    else if e.fault == BeforeRevoke then (db, Some(Errs))
    else
      var revoked := UnusedRevoked(db.resets, o.value);
      if e.fault == AtCreate then (db.(resets := revoked), Some(Errs))
      else
        var reset := Reset(o.value, e.createdAt, e.createdAt + RESET_DURATION, false);
        (db.(resets := revoked[e.token := reset]), if e.fault == AtEmail then Some(Errs) else None)
  }

  // ----- ResetPassword -----

  datatype ResetFault = AllGood | AtMark | AtUser | AtSessions | AtAccess | AtRefresh | AtRevoke

  datatype ResetEnv = ResetEnv(now: Time, hashed: string, fault: ResetFault)

  /** Lifts a lockout from failed logins, which has an end; an administrator's lock has none and stays. */
  function Recovered(u: User, password: string): User {
    var v := u.(password := password, failedLogins := 0);
    if u.status == Locked && u.lockedUntil.Some? then v.(status := Active, lockedUntil := None) else v
  }

  /** The reset a token redeems, or why it cannot be redeemed. */
  function Redeem(db: Db, tenant: Id, token: string, password: string, now: Time): Result<Hash, Error> {
    var h := Sha256(token);
    if |password| < MIN_PASSWORD_LENGTH then Err(TooShort)
    else if token == "" || h !in db.resets || db.resets[h].owner.tenant != tenant then Err(InvalidCode)
    else if db.resets[h].used then Err(InvalidCode)
    else if now >= db.resets[h].expires then Err(Expired)
    else if db.resets[h].owner !in db.users then Err(NotFound)
    else if db.users[db.resets[h].owner].status == Suspended then Err(UserSuspended)
    else Ok(h)
  }

  /** The user's credentials are revoked one table after the other. */
  function CredentialsRevoked(db: Db, o: Owner, fault: ResetFault): Db {
    db.(sessions := if fault == AtSessions then db.sessions else WithoutOwner(db.sessions, o),
        access := if fault == AtSessions || fault == AtAccess then db.access else WithoutOwner(db.access, o),
        refresh := if fault == AtSessions || fault == AtAccess || fault == AtRefresh then db.refresh
                   else WithoutOwner(db.refresh, o))
  }

  /** A reset after its token was found redeemable. */
  function Carried(db: Db, h: Hash, e: ResetEnv): (Db, Result<Owner, Error>)
    requires h in db.resets && db.resets[h].owner in db.users
  {
    var o := db.resets[h].owner;
    var marked := db.(resets := MarkedUsed(db.resets, h));
    if e.fault == AtMark then (db, Err(Errs))
    else if e.fault == AtUser then (marked, Err(Errs))
    else
      var saved := marked.(users := db.users[o := Recovered(db.users[o], e.hashed)]);
      var revoked := CredentialsRevoked(saved, o, e.fault);
      if e.fault == AtSessions || e.fault == AtAccess || e.fault == AtRefresh then (revoked, Err(Errs))
      else (if e.fault == AtRevoke then revoked else revoked.(resets := UnusedRevoked(revoked.resets, o)), Ok(o))
  }

  /** The tables after ResetPassword, and its answer. */
  function Redeemed(db: Db, tenant: Id, token: string, password: string, e: ResetEnv): (Db, Result<Owner, Error>) {
    var found := Redeem(db, tenant, token, password, e.now);
    if found.Err? then (db, Err(found.error)) else Carried(db, found.value, e)
  }

  // ----- The calls in the form of the source -----

  class UserService {
    var resets: Resets
    var users: map<Owner, User>
    var sessions: map<Hash, Owner>
    var access: map<Hash, Owner>
    var refresh: map<Hash, Owner>

    constructor ()
      ensures Tables() == Db(map[], map[], map[], map[], map[])
    {
      resets, users, sessions, access, refresh := map[], map[], map[], map[], map[];
    }

    function Tables(): Db
      reads this
    {
      Db(resets, users, sessions, access, refresh)
    }

    method RequestPasswordReset(o: Option<Owner>, e: RequestEnv) returns (err: Option<Error>)
      modifies this
      ensures Requested(old(Tables()), o, e) == (Tables(), err)
    {
      if o.None? || o.value !in users {
        return None;
      }
      if users[o.value].status == Suspended {
        return None;
      }
      var recent := CountSince(resets, o.value, e.countedAt - HOUR);
      if recent >= MAX_PER_HOUR {
        return None;
      }
      if e.fault == BeforeRevoke {
        return Some(Errs);
      }
      resets := UnusedRevoked(resets, o.value);
      if e.fault == AtCreate {
        return Some(Errs);
      }
      resets := resets[e.token := Reset(o.value, e.createdAt, e.createdAt + RESET_DURATION, false)];
      if e.fault == AtEmail {
        return Some(Errs);
      }
      return None;
    }

    /** The sessions first, then the access tokens, then the refresh tokens. */
    method RevokeUserCredentials(o: Owner, fault: ResetFault) returns (ok: bool)
      modifies this`sessions, this`access, this`refresh
      ensures ok <==> fault != AtSessions && fault != AtAccess && fault != AtRefresh
      ensures sessions == if fault == AtSessions then old(sessions) else WithoutOwner(old(sessions), o)
      ensures access == if fault == AtSessions || fault == AtAccess then old(access) else WithoutOwner(old(access), o)
      ensures refresh == if ok then WithoutOwner(old(refresh), o) else old(refresh)
    {
      if fault == AtSessions {
        return false;
      }
      sessions := WithoutOwner(sessions, o);
      if fault == AtAccess {
        return false;
      }
      access := WithoutOwner(access, o);
      if fault == AtRefresh {
        return false;
      }
      refresh := WithoutOwner(refresh, o);
      return true;
    }

    method ResetPassword(tenant: Id, token: string, password: string, e: ResetEnv) returns (r: Result<Owner, Error>)
      modifies this
      ensures Redeemed(old(Tables()), tenant, token, password, e) == (Tables(), r)
    {
      if |password| < MIN_PASSWORD_LENGTH {
        return Err(TooShort);
      }
      var h := Sha256(token);
      if token == "" || h !in resets || resets[h].owner.tenant != tenant || resets[h].used {
        return Err(InvalidCode);
      }
      if e.now >= resets[h].expires {
        return Err(Expired);
      }
      var o := resets[h].owner;
      if o !in users {
        return Err(NotFound);
      }
      if users[o].status == Suspended {
        return Err(UserSuspended);
      }
      if e.fault == AtMark {
        return Err(Errs);
      }
      resets := MarkedUsed(resets, h);
      if e.fault == AtUser {
        return Err(Errs);
      }
      var u := users[o].(password := e.hashed, failedLogins := 0);
      if u.status == Locked && u.lockedUntil.Some? {
        u := u.(status := Active, lockedUntil := None);
      }
      users := users[o := u];
      var revoked := RevokeUserCredentials(o, e.fault);
      if !revoked {
        return Err(Errs);
      }
      if e.fault != AtRevoke {
        resets := UnusedRevoked(resets, o);
      }
      return Ok(o);
    }

    method DeleteExpired(now: Time)
      modifies this`resets
      ensures resets == Cleaned(old(resets), now)
    {
      resets := map h | h in resets && !(resets[h].expires < now && resets[h].created < now - DAY) :: resets[h];
    }
  }
}
