/**
 * What one token call does from beginning to end when no other call runs and no statement errs, told by the
 * rows before it and after it.
 */
module TokenAlone {
  import opened Common
  import opened Scopes
  import opened TokenTables
  import opened TokenCalls
  import opened TokenRuns

  /** No row of family f is left, and all else is as it was. */
  ghost predicate Deleted(db: Db, db': Db, f: Family) {
    && db'.codes == db.codes
    && (forall h :: h in db'.refresh <==> h in db.refresh && db.refresh[h].family != f)
    && (forall h :: h in db'.refresh ==> db'.refresh[h] == db.refresh[h])
    && (forall h :: h in db'.access <==> h in db.access && db.access[h].family != f)
    && (forall h :: h in db'.access ==> db'.access[h] == db.access[h])
  }

  /** One access token and one refresh token of the family were issued with the given scope, by the k-th and the
      next statement, and nothing else changed. */
  ghost predicate Issued(db: Db, db': Db, f: Family, client: Id, user: Id, authTime: Option<Time>, amr: seq<string>,
                         scope: string, w: World, k: nat, out: Outcome) {
    var a, r := Sha256(w.env(k).newAccess), Sha256(w.env(k + 1).newRefresh);
    && out == Granted(a, r, scope)
    && db'.codes == db.codes
    && db'.access == db.access[a := AccessRow(f, client, user, scope, w.env(k).now + w.env(k).accessTtl)]
    && db'.refresh == db.refresh[r :=
         RefreshRow(f, client, user, scope, authTime, amr, false, w.env(k + 1).now + w.env(k + 1).refreshTtl)]
  }

  lemma DeletionAlone(db: Db, req: Request, f: Family, w: World, k: nat)
    requires Undisturbed(w) && f.tenant == req.tenant
    ensures var (db', out) := Run(db, Call(req, DelRefresh(f)), w, k);
      Deleted(db, db', f) && out == if req.Revoke? then Acknowledged else Refused(InvalidGrant)
  {
    assert Quiet(w, k) && Quiet(w, k + 1);
    RunStep(db, Call(req, DelRefresh(f)), w, k);
    RunStep(Perform(db, WipeRefresh(f)), Call(req, DelAccess(f)), w, k + 1);
  }

  lemma IssueAlone(db: Db, req: Request, g: Grant, w: World, k: nat)
    requires Undisturbed(w) && Issues(req, g)
    requires g.claim.Some? ==> g.claim.value in db.refresh && db.refresh[g.claim.value].family == g.family
    ensures var (db', out) := Run(db, Call(req, StoreAccess(g)), w, k);
      Issued(db, db', g.family, g.client, g.user, g.authTime, g.amr, g.scope, w, k, out)
  {
    assert Quiet(w, k) && Quiet(w, k + 1) && Quiet(w, k + 2) && Quiet(w, k + 3);
    var a, r := Sha256(w.env(k).newAccess), Sha256(w.env(k + 1).newRefresh);
    var access := AddAccess(a, AccessRow(g.family, g.client, g.user, g.scope, w.env(k).now + w.env(k).accessTtl));
    RunStep(db, Call(req, StoreAccess(g)), w, k);
    var db1 := Perform(db, access);
    RunStep(db1, Call(req, StoreRefresh(g, a)), w, k + 1);
    var db2 := db1.(refresh := db1.refresh[r :=
      RefreshRow(g.family, g.client, g.user, g.scope, g.authTime, g.amr, false,
                 w.env(k + 1).now + w.env(k + 1).refreshTtl)]);
    RunStep(db2, Call(req, SignId(g, a, r)), w, k + 2);
    if g.claim.Some? {
      RunStep(db2, Call(req, ReRead(g, a, r)), w, k + 3);
    }
  }

  // ----- Refresh -----

  /** The presented token is stored in the tenant. */
  predicate Known(db: Db, req: Request)
    requires req.Refresh?
  {
    Sha256(req.token) in db.refresh && db.refresh[Sha256(req.token)].family.tenant == req.tenant
  }

  /** The presented token can be rotated: it is of the client, unexpired and not rotated before, and the scope
      asked for lies within its own. */
  predicate Rotatable(row: RefreshRow, req: Request, now: Time)
    requires req.Refresh?
  {
    && !row.revoked && now < row.expires && row.client == req.client
    && (req.scope != "" ==> ScopeSet(req.scope) <= ScopeSet(row.scope))
  }

  /**
   * A refresh call alone. Tokens are answered exactly for a token that can be rotated: it is then marked, and
   * its successor keeps all it was granted but for a narrower scope. A token that was rotated before takes its
   * whole family with it. An expired one is removed. Nothing else changes anything.
   */
  ghost predicate RefreshedAlone(db: Db, req: Request, w: World, db': Db, out: Outcome)
    requires req.Refresh?
  {
    var h, now := Sha256(req.token), w.env(0).now;
    && (out.Granted? <==> Known(db, req) && Rotatable(db.refresh[h], req, now) && w.env(0).clientFound)
    && (!Known(db, req) ==> db' == db && out == Refused(InvalidGrant))
    && (Known(db, req) ==>
          var row := db.refresh[h];
          && (out.Granted? ==>
                Issued(db.(refresh := db.refresh[h := row.(revoked := true)]), db', row.family, row.client, row.user,
                       row.authTime, row.amr, if req.scope == "" then row.scope else req.scope, w, 2, out))
          && (row.revoked ==> Deleted(db, db', row.family) && out == Refused(InvalidGrant))
          && (!row.revoked && now >= row.expires ==>
                db' == db.(refresh := db.refresh - {h}) && out == Refused(InvalidGrant))
          && (!row.revoked && now < row.expires && !out.Granted? ==>
                && db' == db
                && (out == Refused(InvalidScope) <==>
                      row.client == req.client && req.scope != "" && !(ScopeSet(req.scope) <= ScopeSet(row.scope)))
                && (out != Refused(InvalidScope) ==> out == Refused(InvalidGrant))))
  }

  lemma RotationAlone(db: Db, req: Request, row: RefreshRow, scope: string, w: World)
    requires Undisturbed(w) && req.Refresh? && Known(db, req) && db.refresh[Sha256(req.token)] == row && !row.revoked
    ensures var (db', out) := Run(db, Call(req, RefreshClaim(row, scope)), w, 1);
      var marked := db.(refresh := db.refresh[Sha256(req.token) := row.(revoked := true)]);
      Issued(marked, db', row.family, row.client, row.user, row.authTime, row.amr, scope, w, 2, out)
  {
    assert Quiet(w, 1);
    RunStep(db, Call(req, RefreshClaim(row, scope)), w, 1);
    var marked := db.(refresh := db.refresh[Sha256(req.token) := row.(revoked := true)]);
    IssueAlone(marked, req, RefreshGrant(row, scope, Sha256(req.token)), w, 2);
  }

  lemma RefreshAlone(db: Db, req: Request, w: World)
    requires Undisturbed(w) && req.Refresh?
    ensures var (db', out) := Run(db, Call(req, Start(req)), w, 0); RefreshedAlone(db, req, w, db', out)
  {
    assert Quiet(w, 0) && Quiet(w, 1);
    RunStep(db, Call(req, RefreshRead), w, 0);
    if Known(db, req) {
      var row := db.refresh[Sha256(req.token)];
      if row.revoked {
        DeletionAlone(db, req, row.family, w, 1);
      } else if w.env(0).now >= row.expires {
        RunStep(db, Call(req, RefreshDropExpired), w, 1);
      } else if Rotatable(row, req, w.env(0).now) && w.env(0).clientFound {
        RotationAlone(db, req, row, if req.scope == "" then row.scope else req.scope, w);
      }
    }
  }

  // ----- Code exchange -----

  predicate KnownCode(db: Db, req: Request)
    requires req.Exchange?
  {
    req.code in db.codes && db.codes[req.code].family.tenant == req.tenant
  }

  /** The verifier answers the challenge: there is none, or it is the S256 digest of a verifier (section 4.6 of
      RFC 7636). */
  predicate Answers(row: CodeRow, verifier: string) {
    row.challenge != Absent ==>
      verifier != "" && row.challengeMethod == "S256" && row.challenge == Digest(Sha256(verifier))
  }

  /**
   * An exchange alone. Tokens are answered exactly for an unused, unexpired code of the client, with its
   * redirect URI and a verifier that answers its challenge. A used code takes the family it started with it. An
   * expired code is removed; every other code that was presented is used up.
   */
  ghost predicate ExchangedAlone(db: Db, req: Request, w: World, db': Db, out: Outcome)
    requires req.Exchange?
  {
    var now := w.env(0).now;
    && (!KnownCode(db, req) ==> db' == db && out == Refused(InvalidGrant))
    && (KnownCode(db, req) ==>
          var row := db.codes[req.code];
          var spent := db.(codes := db.codes[req.code := row.(used := true)]);
          && (out.Granted? <==>
                && !row.used && now < row.expires && row.client == req.client && row.redirectUri == req.redirectUri
                && Answers(row, req.verifier) && w.env(0).clientFound)
          && (out.Granted? ==>
                Issued(spent, db', row.family, row.client, row.user, row.authTime, row.amr, row.scope, w, 1, out))
          && (row.used ==> Deleted(db, db', row.family) && out == Refused(InvalidGrant))
          && (!row.used && now >= row.expires ==>
                db' == db.(codes := db.codes - {req.code}) && out == Refused(InvalidGrant))
          && (!row.used && now < row.expires && !out.Granted? ==>
                && db' == spent
                && (out == Refused(PkceFailed) <==>
                      && row.client == req.client && row.redirectUri == req.redirectUri
                      && !Answers(row, req.verifier))
                && (out != Refused(PkceFailed) ==> out == Refused(InvalidGrant))))
  }

  lemma ExchangeAlone(db: Db, req: Request, w: World)
    requires Undisturbed(w) && req.Exchange?
    ensures var (db', out) := Run(db, Call(req, Start(req)), w, 0); ExchangedAlone(db, req, w, db', out)
  {
    assert Quiet(w, 0) && Quiet(w, 1);
    RunStep(db, Call(req, CodeConsume), w, 0);
    if !KnownCode(db, req) {
      RunStep(db, Call(req, CodeRead), w, 1);
    } else if db.codes[req.code].used {
      RunStep(db, Call(req, CodeRead), w, 1);
      DeletionAlone(db, req, db.codes[req.code].family, w, 2);
    } else {
      FirstExchangeAlone(db, req, w);
    }
  }

  lemma FirstExchangeAlone(db: Db, req: Request, w: World)
    requires Undisturbed(w) && req.Exchange? && KnownCode(db, req) && !db.codes[req.code].used
    ensures var (db', out) := Run(db, Call(req, CodeConsume), w, 0); ExchangedAlone(db, req, w, db', out)
  {
    assert Quiet(w, 0) && Quiet(w, 1);
    var row := db.codes[req.code];
    var spent := db.(codes := db.codes[req.code := row.(used := true)]);
    RunStep(db, Call(req, CodeConsume), w, 0);
    if w.env(0).now >= row.expires {
      RunStep(spent, Call(req, CodeDropExpired), w, 1);
      assert spent.codes - {req.code} == db.codes - {req.code};
    } else if row.client == req.client && row.redirectUri == req.redirectUri && Answers(row, req.verifier)
              && w.env(0).clientFound {
      var g := Grant(row.family, row.client, row.user, row.scope, row.authTime, row.amr, None);
      IssueAlone(spent, req, g, w, 1);
    }
  }

  // ----- Revocation -----

  /** The token is looked up among the refresh tokens first, unless the hint excludes them, and is one. */
  predicate IsRefreshToken(db: Db, req: Request)
    requires req.Revoke?
  {
    && (req.hint == "" || req.hint == "refresh_token")
    && Sha256(req.token) in db.refresh && db.refresh[Sha256(req.token)].family.tenant == req.tenant
  }

  predicate IsAccessToken(db: Db, req: Request)
    requires req.Revoke?
  {
    && (req.hint == "" || req.hint == "access_token")
    && Sha256(req.token) in db.access && db.access[Sha256(req.token)].family.tenant == req.tenant
  }

  /**
   * A revocation alone (section 2.1 of RFC 7009). A refresh token of the client takes its family with it, an
   * access token of the client is removed, and nothing else changes anything; the answer is always the same.
   */
  ghost predicate RevokedAlone(db: Db, req: Request, db': Db, out: Outcome)
    requires req.Revoke?
  {
    var h := Sha256(req.token);
    && out == Acknowledged
    && (IsRefreshToken(db, req) ==>
          if db.refresh[h].client == req.client then Deleted(db, db', db.refresh[h].family) else db' == db)
    && (!IsRefreshToken(db, req) && IsAccessToken(db, req) ==>
          db' == if db.access[h].client == req.client then db.(access := db.access - {h}) else db)
    && (!IsRefreshToken(db, req) && !IsAccessToken(db, req) ==> db' == db)
  }

  lemma AccessRevocationAlone(db: Db, req: Request, w: World, k: nat)
    requires Undisturbed(w) && req.Revoke?
    requires req.hint == "" || req.hint == "access_token"
    ensures var h := Sha256(req.token);
      Run(db, Call(req, RevokeReadAccess), w, k) ==
        (if IsAccessToken(db, req) && db.access[h].client == req.client then db.(access := db.access - {h}) else db,
         Acknowledged)
  {
    assert Quiet(w, k) && Quiet(w, k + 1);
    RunStep(db, Call(req, RevokeReadAccess), w, k);
    if IsAccessToken(db, req) && db.access[Sha256(req.token)].client == req.client {
      RunStep(db, Call(req, RevokeDropAccess), w, k + 1);
    }
  }

  lemma RevocationAlone(db: Db, req: Request, w: World)
    requires Undisturbed(w) && req.Revoke?
    ensures var (db', out) := Run(db, Call(req, Start(req)), w, 0); RevokedAlone(db, req, db', out)
  {
    assert Quiet(w, 0);
    if req.hint == "" || req.hint == "refresh_token" {
      RunStep(db, Call(req, RevokeRead), w, 0);
      if IsRefreshToken(db, req) {
        if db.refresh[Sha256(req.token)].client == req.client {
          DeletionAlone(db, req, db.refresh[Sha256(req.token)].family, w, 1);
        }
      } else if req.hint == "" {
        AccessRevocationAlone(db, req, w, 1);
      }
    } else if req.hint == "access_token" {
      AccessRevocationAlone(db, req, w, 0);
    }
  }
}
