/**
 * The token endpoint calls of internal/services/auth_service_impl.go as programs whose steps are
 * single statements: RefreshTokens, ExchangeAuthorizationCode and RevokeToken.
 */
module TokenCalls {
  import opened Common
  import opened Scopes
  import opened TokenTables

  datatype Request =
    | Refresh(tenant: Id, token: string, client: Id, scope: string)
    | Exchange(tenant: Id, code: string, client: Id, redirectUri: string, verifier: string)
    | Revoke(tenant: Id, token: string, hint: string, client: Id)

  datatype Error = InvalidGrant | InvalidScope | PkceFailed | ServerError

  datatype Outcome =
    | Granted(access: Hash, refresh: Hash, scope: string)
    | Refused(error: Error)
    | Acknowledged

  /** What issueTokens is asked to issue; claim is the rotated refresh token, if any. */
  datatype Grant = Grant(
    family: Family, client: Id, user: Id, scope: string,
    authTime: Option<Time>, amr: seq<string>, claim: Option<Hash>)

  /** The statement a call runs next, with the local variables it still needs. */
  datatype Pc =
    | RefreshRead
    | RefreshDropExpired
    | RefreshClaim(row: RefreshRow, scope: string)
    | CodeConsume
    | CodeRead
    | CodeDropExpired
    | StoreAccess(g: Grant)
    | StoreRefresh(g: Grant, access: Hash)
    | SignId(g: Grant, access: Hash, refresh: Hash)
    | ReRead(g: Grant, access: Hash, refresh: Hash)
    | RevokeRead
    | RevokeReadAccess
    | RevokeDropAccess
    | DelRefresh(family: Family)
    | DelAccess(family: Family)
    | Done(outcome: Outcome)

  datatype Call = Call(req: Request, pc: Pc)

  /**
   * What a step is given from outside: the clock, whether its storage call (or random source, or
   * signing key) errs, whether the client row exists, and new random tokens.
   */
  datatype Env = Env(
    now: Time, fails: bool, clientFound: bool,
    newAccess: string, newRefresh: string, accessTtl: nat, refreshTtl: nat)

  const OPENID := "openid"

  function Start(req: Request): Pc {
    match req
    case Refresh(_, _, _, _) => RefreshRead
    case Exchange(_, _, _, _, _) => CodeConsume
    case Revoke(_, _, hint, _) =>
      if hint == "" || hint == "refresh_token" then RevokeRead
      else if hint == "access_token" then RevokeReadAccess
      else Done(Acknowledged)
  }

  /** ValidatePKCE, and the checks around it in ExchangeAuthorizationCode. */
  predicate PkceHolds(code: CodeRow, verifier: string) {
    code.challenge == Absent ||
    (verifier != "" && code.challengeMethod == "S256" && code.challenge == Digest(Sha256(verifier)))
  }

  /** RefreshTokens up to the claim: the checks on the row that was read. */
  function AfterRefreshRead(row: RefreshRow, req: Request, e: Env): Pc
    requires req.Refresh?
  {
    if row.revoked then DelRefresh(row.family)
    else if row.expires <= e.now then RefreshDropExpired
    else if row.client != req.client then Done(Refused(InvalidGrant))
    else if req.scope != "" && !(ScopeSet(req.scope) <= ScopeSet(row.scope)) then Done(Refused(InvalidScope))
    else if !e.clientFound then Done(Refused(InvalidGrant))
    else RefreshClaim(row, if req.scope != "" then req.scope else row.scope)
  }

  function RefreshGrant(row: RefreshRow, scope: string, h: Hash): Grant {
    Grant(row.family, row.client, row.user, scope, row.authTime, row.amr, Some(h))
  }

  /** ExchangeAuthorizationCode after the code was consumed. */
  function AfterConsume(code: CodeRow, req: Request, e: Env): Pc
    requires req.Exchange?
  {
    if code.expires <= e.now then CodeDropExpired
    else if code.client != req.client then Done(Refused(InvalidGrant))
    else if code.redirectUri != req.redirectUri then Done(Refused(InvalidGrant))
    else if !PkceHolds(code, req.verifier) then Done(Refused(PkceFailed))
    else if !e.clientFound then Done(Refused(InvalidGrant))
    else StoreAccess(Grant(code.family, code.client, code.user, code.scope, code.authTime, code.amr, None))
  }

  /** The statement a call runs next on db, and where the call is after it. */
  function Decide(db: Db, c: Call, e: Env): (Effect, Pc)
    requires WellFormed(c)
  {
    match c.pc
    case RefreshRead =>
      var row := FindRefresh(db.refresh, c.req.tenant, Sha256(c.req.token));
      if e.fails || row.None? then (Nothing, Done(Refused(InvalidGrant)))
      else (Nothing, AfterRefreshRead(row.value, c.req, e))
    case RefreshDropExpired =>
      (if e.fails then Nothing else DropRefresh(c.req.tenant, Sha256(c.req.token)), Done(Refused(InvalidGrant)))
    case RefreshClaim(row, scope) =>
      var h := Sha256(c.req.token);
      if e.fails then (Nothing, Done(Refused(ServerError)))
      else if Claimable(db.refresh, c.req.tenant, h) then
        (ClaimRefresh(c.req.tenant, h), StoreAccess(RefreshGrant(row, scope, h)))
      else (Nothing, DelRefresh(row.family))
    case CodeConsume =>
      if e.fails then (Nothing, Done(Refused(InvalidGrant)))
      else if Usable(db.codes, c.req.tenant, c.req.code) then
        (UseCode(c.req.tenant, c.req.code), AfterConsume(db.codes[c.req.code], c.req, e))
      else (Nothing, CodeRead)
    case CodeRead =>
      var row := FindCode(db.codes, c.req.tenant, c.req.code);
      if e.fails || row.None? then (Nothing, Done(Refused(InvalidGrant)))
      else (Nothing, DelRefresh(row.value.family))
    case CodeDropExpired =>
      (if e.fails then Nothing else DropCode(c.req.tenant, c.req.code), Done(Refused(InvalidGrant)))
    case StoreAccess(g) =>
      var a := Sha256(e.newAccess);
      if e.fails then (Nothing, Done(Refused(ServerError)))
      else (AddAccess(a, AccessRow(g.family, g.client, g.user, g.scope, e.now + e.accessTtl)), StoreRefresh(g, a))
    case StoreRefresh(g, a) =>
      var r := Sha256(e.newRefresh);
      if e.fails then (Nothing, Done(Refused(ServerError)))
      else
        (AddRefresh(r, RefreshRow(g.family, g.client, g.user, g.scope, g.authTime, g.amr, false, e.now + e.refreshTtl)),
         SignId(g, a, r))
    case SignId(g, a, r) =>
      if OPENID in ScopeSet(g.scope) && e.fails then (Nothing, Done(Refused(ServerError)))
      else if g.claim.None? then (Nothing, Done(Granted(a, r, g.scope)))
      else (Nothing, ReRead(g, a, r))
    case ReRead(g, a, r) =>
      if e.fails then (Nothing, Done(Refused(ServerError)))
      else if FindRefresh(db.refresh, c.req.tenant, g.claim.value).Some? then (Nothing, Done(Granted(a, r, g.scope)))
      else (Nothing, DelRefresh(g.family))
    case RevokeRead =>
      var row := FindRefresh(db.refresh, c.req.tenant, Sha256(c.req.token));
      if e.fails || row.None? then
        (Nothing, if c.req.hint == "" then RevokeReadAccess else Done(Acknowledged))
      else if row.value.client != c.req.client then (Nothing, Done(Acknowledged))
      else (Nothing, DelRefresh(row.value.family))
    case RevokeReadAccess =>
      var row := FindAccess(db.access, c.req.tenant, Sha256(c.req.token));
      if e.fails || row.None? || row.value.client != c.req.client then (Nothing, Done(Acknowledged))
      else (Nothing, RevokeDropAccess)
    case RevokeDropAccess =>
      (if e.fails then Nothing else DropAccess(c.req.tenant, Sha256(c.req.token)), Done(Acknowledged))
    case DelRefresh(f) =>
      (if e.fails then Nothing else WipeRefresh(f), DelAccess(f))
    case DelAccess(f) =>
      (if e.fails then Nothing else WipeAccess(f), Done(Revoked(c.req)))
    case Done(_) => (Nothing, c.pc)
  }

  /** The answer of a call that revoked a family. */
  function Revoked(req: Request): Outcome {
    if req.Revoke? then Acknowledged else Refused(InvalidGrant)
  }

  /** A call is only ever at a statement of its own procedure. */
  predicate WellFormed(c: Call) {
    match c.pc
    case RefreshRead => c.req.Refresh?
    case RefreshDropExpired => c.req.Refresh?
    case RefreshClaim(row, _) => c.req.Refresh? && row.family.tenant == c.req.tenant
    case CodeConsume => c.req.Exchange?
    case CodeRead => c.req.Exchange?
    case CodeDropExpired => c.req.Exchange?
    case StoreAccess(g) => Issues(c.req, g)
    case StoreRefresh(g, _) => Issues(c.req, g)
    case SignId(g, _, _) => Issues(c.req, g)
    case ReRead(g, _, _) => Issues(c.req, g) && g.claim.Some?
    case RevokeRead => c.req.Revoke?
    case RevokeReadAccess => c.req.Revoke?
    case RevokeDropAccess => c.req.Revoke?
    case DelRefresh(f) => f.tenant == c.req.tenant
    case DelAccess(f) => f.tenant == c.req.tenant
    case Done(_) => true
  }

  predicate Issues(req: Request, g: Grant) {
    && g.family.tenant == req.tenant
    && (if req.Refresh? then g.claim == Some(Sha256(req.token)) else req.Exchange? && g.claim.None?)
  }

  lemma StepStaysWellFormed(db: Db, c: Call, e: Env)
    requires WellFormed(c)
    ensures WellFormed(Call(c.req, Decide(db, c, e).1))
  {
  }

  /** An upper bound on the steps a call still has to run. */
  function Rank(pc: Pc): nat {
    match pc
    case CodeConsume => 9
    case CodeRead => 8
    case CodeDropExpired => 1
    case RefreshRead => 9
    case RefreshDropExpired => 1
    case RefreshClaim(_, _) => 8
    case StoreAccess(_) => 7
    case StoreRefresh(_, _) => 6
    case SignId(_, _, _) => 5
    case ReRead(_, _, _) => 4
    case RevokeRead => 4
    case RevokeReadAccess => 2
    case RevokeDropAccess => 1
    case DelRefresh(_) => 3
    case DelAccess(_) => 2
    case Done(_) => 0
  }

  /** Every call runs at most nine more statements. */
  lemma StepsTerminate(db: Db, c: Call, e: Env)
    requires WellFormed(c) && !c.pc.Done?
    ensures Rank(Decide(db, c, e).1) < Rank(c.pc) <= 9
  {
  }
}
