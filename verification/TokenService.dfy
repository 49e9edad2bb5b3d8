/**
 * The repositories and the authorization service in the form of the source: objects whose methods
 * update their tables. Each service method is proved to run exactly the statements that TokenCalls
 * gives for its call, so that TokenTheorems speaks about these methods.
 */
module TokenService {
  import opened Common
  import opened Scopes
  import opened TokenTables
  import opened TokenCalls
  import opened TokenRuns
  import opened TokenAlone

  class RefreshTokenRepository {
    var rows: map<Hash, RefreshRow>

    constructor ()
      ensures rows == map[]
    {
      rows := map[];
    }

    method Create(h: Hash, row: RefreshRow)
      modifies this
      ensures rows == old(rows)[h := row]
    {
      rows := rows[h := row];
    }

    method GetByToken(tenant: Id, h: Hash) returns (row: Option<RefreshRow>)
      ensures row == FindRefresh(rows, tenant, h)
    {
      if h in rows && rows[h].family.tenant == tenant {
        return Some(rows[h]);
      }
      return None;
    }

    /** Marks an unrevoked token revoked; of concurrent callers exactly one is told it did. */
    method Revoke(tenant: Id, h: Hash) returns (claimed: bool)
      modifies this
      ensures claimed <==> h in old(rows) && old(rows)[h].family.tenant == tenant && !old(rows)[h].revoked
      ensures rows == Claimed(old(rows), tenant, h)
      ensures claimed ==> h in rows && rows[h].revoked
    {
      if h in rows && rows[h].family.tenant == tenant && !rows[h].revoked {
        rows := rows[h := rows[h].(revoked := true)];
        return true;
      }
      return false;
    }

    method DeleteByFamilyId(family: Family)
      modifies this
      ensures rows == RefreshOutside(old(rows), family)
    {
      rows := map h | h in rows && rows[h].family != family :: rows[h];
    }

    method Delete(tenant: Id, h: Hash)
      modifies this
      ensures rows == WithoutRefresh(old(rows), tenant, h)
    {
      if h in rows && rows[h].family.tenant == tenant {
        rows := rows - {h};
      }
    }

    method DeleteExpired(now: Time)
      modifies this
      ensures forall h :: h in rows <==> h in old(rows) && old(rows)[h].expires >= now
      ensures forall h :: h in rows ==> rows[h] == old(rows)[h]
    {
      rows := map h | h in rows && rows[h].expires >= now :: rows[h];
    }
  }

  class AccessTokenRepository {
    var rows: map<Hash, AccessRow>

    constructor ()
      ensures rows == map[]
    {
      rows := map[];
    }

    method Create(h: Hash, row: AccessRow)
      modifies this
      ensures rows == old(rows)[h := row]
    {
      rows := rows[h := row];
    }

    method GetByToken(tenant: Id, h: Hash) returns (row: Option<AccessRow>)
      ensures row == FindAccess(rows, tenant, h)
    {
      if h in rows && rows[h].family.tenant == tenant {
        return Some(rows[h]);
      }
      return None;
    }

    method Delete(tenant: Id, h: Hash)
      modifies this
      ensures rows == WithoutAccess(old(rows), tenant, h)
    {
      if h in rows && rows[h].family.tenant == tenant {
        rows := rows - {h};
      }
    }

    method DeleteByFamilyId(family: Family)
      modifies this
      ensures rows == AccessOutside(old(rows), family)
    {
      rows := map h | h in rows && rows[h].family != family :: rows[h];
    }

    method DeleteExpired(now: Time)
      modifies this
      ensures forall h :: h in rows <==> h in old(rows) && old(rows)[h].expires >= now
      ensures forall h :: h in rows ==> rows[h] == old(rows)[h]
    {
      rows := map h | h in rows && rows[h].expires >= now :: rows[h];
    }
  }

  class AuthCodeRepository {
    var rows: map<string, CodeRow>

    constructor ()
      ensures rows == map[]
    {
      rows := map[];
    }

    /** The conditional update of Consume; None when no unused row matched. */
    method Use(tenant: Id, code: string) returns (row: Option<CodeRow>)
      modifies this
      ensures row.Some? <==> code in old(rows) && old(rows)[code].family.tenant == tenant && !old(rows)[code].used
      ensures row.Some? ==> row.value == old(rows)[code]
      ensures rows == CodeUsed(old(rows), tenant, code)
    {
      if code in rows && rows[code].family.tenant == tenant && !rows[code].used {
        row := Some(rows[code]);
        rows := rows[code := rows[code].(used := true)];
      } else {
        row := None;
      }
    }

    method GetByCode(tenant: Id, code: string) returns (row: Option<CodeRow>)
      ensures row == FindCode(rows, tenant, code)
    {
      if code in rows && rows[code].family.tenant == tenant {
        return Some(rows[code]);
      }
      return None;
    }

    method Delete(tenant: Id, code: string)
      modifies this
      ensures rows == WithoutCode(old(rows), tenant, code)
    {
      if code in rows && rows[code].family.tenant == tenant {
        rows := rows - {code};
      }
    }
  }

  // ----- The service -----

  class AuthService {
    const refreshTokens: RefreshTokenRepository
    const accessTokens: AccessTokenRepository
    const authCodes: AuthCodeRepository

    constructor (r: RefreshTokenRepository, a: AccessTokenRepository, c: AuthCodeRepository)
      ensures refreshTokens == r && accessTokens == a && authCodes == c
    {
      refreshTokens, accessTokens, authCodes := r, a, c;
    }

    ghost function Tables(): Db
      reads refreshTokens, accessTokens, authCodes
    {
      Db(refreshTokens.rows, accessTokens.rows, authCodes.rows)
    }

    /** Concurrent calls run between two statements of this one. */
    method Interleave(w: World, k: nat)
      modifies refreshTokens, accessTokens, authCodes
      ensures Tables() == w.others(k, old(Tables()))
    {
      var db := w.others(k, Db(refreshTokens.rows, accessTokens.rows, authCodes.rows));
      refreshTokens.rows, accessTokens.rows, authCodes.rows := db.refresh, db.access, db.codes;
    }

    /** revokeTokenFamily: refresh tokens first, then access tokens; a failed delete is only logged. */
    method RevokeTokenFamily(family: Family, ghost req: Request, w: World, k: nat)
      requires family.tenant == req.tenant
      modifies refreshTokens, accessTokens, authCodes
      ensures Run(old(Tables()), Call(req, DelRefresh(family)), w, k) == (Tables(), Revoked(req))
      ensures !w.env(k + 1).fails ==> forall h :: h in accessTokens.rows ==> accessTokens.rows[h].family != family
    {
      RunStep(Tables(), Call(req, DelRefresh(family)), w, k);
      Interleave(w, k);
      if !w.env(k).fails {
        refreshTokens.DeleteByFamilyId(family);
      }
      RunStep(Tables(), Call(req, DelAccess(family)), w, k + 1);
      Interleave(w, k + 1);
      if !w.env(k + 1).fails {
        accessTokens.DeleteByFamilyId(family);
      }
    }

    function AfterIssue(g: Grant, tokens: (Hash, Hash)): Pc {
      if g.claim.None? then Done(Granted(tokens.0, tokens.1, g.scope)) else ReRead(g, tokens.0, tokens.1)
    }

    /** issueTokens: the access token, then the refresh token, then the ID token. */
    method IssueTokens(g: Grant, ghost req: Request, w: World, k: nat) returns (r: Result<(Hash, Hash), Error>)
      requires Issues(req, g)
      modifies refreshTokens, accessTokens, authCodes
      ensures r.Err? ==> Run(old(Tables()), Call(req, StoreAccess(g)), w, k) == (Tables(), Refused(r.error))
      ensures r.Ok? ==> Run(old(Tables()), Call(req, StoreAccess(g)), w, k) ==
                        Run(Tables(), Call(req, AfterIssue(g, r.value)), w, k + 3)
      ensures r.Ok? ==> r.value == (Sha256(w.env(k).newAccess), Sha256(w.env(k + 1).newRefresh))
    {
      RunStep(Tables(), Call(req, StoreAccess(g)), w, k);
      Interleave(w, k);
      var e := w.env(k);
      if e.fails {
        return Err(ServerError);
      }
      var access := Sha256(e.newAccess);
      accessTokens.Create(access, AccessRow(g.family, g.client, g.user, g.scope, e.now + e.accessTtl));
      RunStep(Tables(), Call(req, StoreRefresh(g, access)), w, k + 1);
      Interleave(w, k + 1);
      e := w.env(k + 1);
      if e.fails {
        return Err(ServerError);
      }
      var refresh := Sha256(e.newRefresh);
      refreshTokens.Create(refresh,
        RefreshRow(g.family, g.client, g.user, g.scope, g.authTime, g.amr, false, e.now + e.refreshTtl));
      RunStep(Tables(), Call(req, SignId(g, access, refresh)), w, k + 2);
      Interleave(w, k + 2);
      var wantsIdToken := ScopeContains(g.scope, OPENID);
      if wantsIdToken && w.env(k + 2).fails {
        return Err(ServerError);
      }
      return Ok((access, refresh));
    }

    /** RefreshTokens. */
    method RefreshTokens(tenant: Id, token: string, client: Id, requestedScope: string, w: World)
      returns (out: Outcome)
      modifies refreshTokens, accessTokens, authCodes
      ensures var req := Refresh(tenant, token, client, requestedScope);
        && Run(old(Tables()), Call(req, Start(req)), w, 0) == (Tables(), out)
        && (Undisturbed(w) ==> RefreshedAlone(old(Tables()), req, w, Tables(), out))
    {
      ghost var req := Refresh(tenant, token, client, requestedScope);
      if Undisturbed(w) {
        RefreshAlone(Tables(), req, w);
      }
      var h := Sha256(token);
      RunStep(Tables(), Call(req, RefreshRead), w, 0);
      Interleave(w, 0);
      var row := refreshTokens.GetByToken(tenant, h);
      if w.env(0).fails || row.None? {
        return Refused(InvalidGrant);
      }
      var t := row.value;
      if t.revoked {
        RevokeTokenFamily(t.family, req, w, 1);
        return Refused(InvalidGrant);
      }
      if t.expires <= w.env(0).now {
        RunStep(Tables(), Call(req, RefreshDropExpired), w, 1);
        Interleave(w, 1);
        if !w.env(1).fails {
          refreshTokens.Delete(tenant, h);
        }
        return Refused(InvalidGrant);
      }
      if t.client != client {
        return Refused(InvalidGrant);
      }
      var scope := t.scope;
      if requestedScope != "" {
        var narrower := ScopeIsSubset(requestedScope, t.scope);
        if !narrower {
          return Refused(InvalidScope);
        }
        scope := requestedScope;
      }
      if !w.env(0).clientFound {
        return Refused(InvalidGrant);
      }
      out := Rotate(tenant, h, t, scope, req, w);
    }

    /** RefreshTokens from the claim on. */
    method Rotate(tenant: Id, h: Hash, t: RefreshRow, scope: string, ghost req: Request, w: World)
      returns (out: Outcome)
      requires req.Refresh? && req.tenant == tenant == t.family.tenant && h == Sha256(req.token)
      modifies refreshTokens, accessTokens, authCodes
      ensures Run(old(Tables()), Call(req, RefreshClaim(t, scope)), w, 1) == (Tables(), out)
    {
      RunStep(Tables(), Call(req, RefreshClaim(t, scope)), w, 1);
      Interleave(w, 1);
      if w.env(1).fails {
        return Refused(ServerError);
      }
      var claimed := refreshTokens.Revoke(tenant, h);
      if !claimed {
        RevokeTokenFamily(t.family, req, w, 2);
        return Refused(InvalidGrant);
      }
      var g := RefreshGrant(t, scope, h);
      var issued := IssueTokens(g, req, w, 2);
      if issued.Err? {
        return Refused(issued.error);
      }
      out := LookAgain(tenant, h, g, issued.value, req, w);
    }

    /** RefreshTokens after its tokens were issued: is the claimed row still there? */
    method LookAgain(tenant: Id, h: Hash, g: Grant, issued: (Hash, Hash), ghost req: Request, w: World)
      returns (out: Outcome)
      requires req.Refresh? && req.tenant == tenant && Issues(req, g) && g.claim == Some(h)
      modifies refreshTokens, accessTokens, authCodes
      ensures Run(old(Tables()), Call(req, ReRead(g, issued.0, issued.1)), w, 5) == (Tables(), out)
    {
      RunStep(Tables(), Call(req, ReRead(g, issued.0, issued.1)), w, 5);
      Interleave(w, 5);
      if w.env(5).fails {
        return Refused(ServerError);
      }
      var still := refreshTokens.GetByToken(tenant, h);
      if still.None? {
        RevokeTokenFamily(g.family, req, w, 6);
        return Refused(InvalidGrant);
      }
      return Granted(issued.0, issued.1, g.scope);
    }

    /** ExchangeAuthorizationCode. */
    method ExchangeAuthorizationCode(tenant: Id, code: string, client: Id, redirectUri: string, verifier: string,
                                     w: World) returns (out: Outcome)
      modifies refreshTokens, accessTokens, authCodes
      ensures var req := Exchange(tenant, code, client, redirectUri, verifier);
        && Run(old(Tables()), Call(req, Start(req)), w, 0) == (Tables(), out)
        && (Undisturbed(w) ==> ExchangedAlone(old(Tables()), req, w, Tables(), out))
    {
      ghost var req := Exchange(tenant, code, client, redirectUri, verifier);
      if Undisturbed(w) {
        ExchangeAlone(Tables(), req, w);
      }
      RunStep(Tables(), Call(req, CodeConsume), w, 0);
      Interleave(w, 0);
      if w.env(0).fails {
        return Refused(InvalidGrant);
      }
      var used := authCodes.Use(tenant, code);
      if used.None? {
        RunStep(Tables(), Call(req, CodeRead), w, 1);
        Interleave(w, 1);
        var row := authCodes.GetByCode(tenant, code);
        if w.env(1).fails || row.None? {
          return Refused(InvalidGrant);
        }
        RevokeTokenFamily(row.value.family, req, w, 2);
        return Refused(InvalidGrant);
      }
      out := ExchangeUsed(used.value, code, tenant, client, redirectUri, verifier, w.env(0), req, w);
    }

    /** ExchangeAuthorizationCode after the code was used; e is what that statement was given. */
    method ExchangeUsed(c: CodeRow, code: string, tenant: Id, client: Id, redirectUri: string, verifier: string, e: Env,
                        ghost req: Request, w: World) returns (out: Outcome)
      requires req == Exchange(tenant, code, client, redirectUri, verifier) && c.family.tenant == tenant
      modifies refreshTokens, accessTokens, authCodes
      ensures Run(old(Tables()), Call(req, AfterConsume(c, req, e)), w, 1) == (Tables(), out)
    {
      if c.expires <= e.now {
        RunStep(Tables(), Call(req, CodeDropExpired), w, 1);
        Interleave(w, 1);
        if !w.env(1).fails {
          authCodes.Delete(tenant, code);
        }
        return Refused(InvalidGrant);
      }
      if c.client != client || c.redirectUri != redirectUri {
        return Refused(InvalidGrant);
      }
      if c.challenge != Absent {
        if verifier == "" {
          return Refused(PkceFailed);
        }
        if c.challengeMethod != "S256" || c.challenge != Digest(Sha256(verifier)) {
          return Refused(PkceFailed);
        }
      }
      if !e.clientFound {
        return Refused(InvalidGrant);
      }
      var g := Grant(c.family, c.client, c.user, c.scope, c.authTime, c.amr, None);
      var issued := IssueTokens(g, req, w, 1);
      if issued.Err? {
        return Refused(issued.error);
      }
      return Granted(issued.value.0, issued.value.1, c.scope);
    }

    /** The access-token half of RevokeToken. */
    method RevokeAccessToken(h: Hash, ghost req: Request, client: Id, tenant: Id, w: World, k: nat)
      requires req.Revoke? && req.tenant == tenant && h == Sha256(req.token) && req.client == client
      modifies refreshTokens, accessTokens, authCodes
      ensures Run(old(Tables()), Call(req, RevokeReadAccess), w, k) == (Tables(), Acknowledged)
    {
      RunStep(Tables(), Call(req, RevokeReadAccess), w, k);
      Interleave(w, k);
      var row := accessTokens.GetByToken(tenant, h);
      if !w.env(k).fails && row.Some? && row.value.client == client {
        RunStep(Tables(), Call(req, RevokeDropAccess), w, k + 1);
        Interleave(w, k + 1);
        if !w.env(k + 1).fails {
          accessTokens.Delete(tenant, h);
        }
      }
    }

    /** RevokeToken. */
    method RevokeToken(tenant: Id, token: string, hint: string, client: Id, w: World) returns (out: Outcome)
      modifies refreshTokens, accessTokens, authCodes
      ensures var req := Revoke(tenant, token, hint, client);
        && Run(old(Tables()), Call(req, Start(req)), w, 0) == (Tables(), out)
        && (Undisturbed(w) ==> RevokedAlone(old(Tables()), req, Tables(), out))
      ensures out == Acknowledged
    {
      ghost var req := Revoke(tenant, token, hint, client);
      if Undisturbed(w) {
        RevocationAlone(Tables(), req, w);
      }
      var h := Sha256(token);
      var k := 0;
      if hint == "refresh_token" || hint == "" {
        RunStep(Tables(), Call(req, RevokeRead), w, 0);
        Interleave(w, 0);
        var row := refreshTokens.GetByToken(tenant, h);
        if !w.env(0).fails && row.Some? {
          if row.value.client == client {
            RevokeTokenFamily(row.value.family, req, w, 1);
          }
          return Acknowledged;
        }
        k := 1;
      }
      if hint == "access_token" || hint == "" {
        RevokeAccessToken(h, req, client, tenant, w, k);
      }
      return Acknowledged;
    }
  }
}
