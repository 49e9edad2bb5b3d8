/**
 * What one registration call does from beginning to end when no other call runs and no statement errs, told by
 * the rows before it and after it.
 */
module RegistrationAlone {
  import opened Common
  import opened Scopes
  import opened ClientMetadata
  import opened MetadataRules
  import opened RegistrationCalls
  import opened RegistrationRuns

  /** The call is refused for its metadata, and nothing changes. */
  predicate RefusedFor(db: Db, db': Db, out: Outcome, error: MetadataError) {
    db' == db && out == Refused(BadMetadata(error))
  }

  // ----- Initial access tokens -----

  /** At least one scope and only scope-tokens, a lifetime that the multiplication lets through, and at most 1000
      uses. */
  ghost predicate MayIssue(req: Request)
    requires req.Issue?
  {
    && Values(req.scopes) != {} && (forall v :: v in Values(req.scopes) ==> ScopeToken(v))
    && (0 <= req.expiresIn <= 2_592_000 || exists q :: NearWord(req.expiresIn, q))
    && 0 <= req.maxUses <= 1000
  }

  /** Issuing alone: exactly for such a request a new unused token is stored, with the scopes asked for, one use
      unless more were asked for, and, by the documented rule, a day unless another lifetime was asked for. */
  ghost predicate IssuedAlone(db: Db, req: Request, e: Env, db': Db, out: Outcome)
    requires req.Issue?
  {
    if !MayIssue(req) then RefusedFor(db, db', out, InvalidClientMetadata)
    else
      var h := Sha256(e.newToken);
      && out == Issued(h) && db'.clients == db.clients
      && h in db'.tokens && db'.tokens == db.tokens[h := db'.tokens[h]]
      && var row := db'.tokens[h];
      && row.tenant == req.tenant && ListSet(row.scopes) == Values(req.scopes)
      && row.maxUses == (if req.maxUses == 0 then 1 else req.maxUses) && row.uses == 0 && !row.revoked
      && (0 <= req.expiresIn <= 2_592_000 ==>
            row.expires == e.now + (if req.expiresIn == 0 then 86_400 else req.expiresIn) * 1_000_000_000)
  }

  lemma TokensOfValues(scopes: seq<string>)
    ensures ScopeTokens(Dedupe(scopes)) <==> forall v :: v in Values(scopes) ==> ScopeToken(v)
    ensures Dedupe(scopes) == [] <==> Values(scopes) == {}
  {
    DedupeIsValues(scopes);
    MembersAgree(scopes, "");
    var out := Dedupe(scopes);
    assert forall i :: 0 <= i < |out| ==> out[i] in ListSet(out);
  }

  lemma NewTokenExactly(req: Request, now: Time)
    requires req.Issue?
    ensures var t := NewToken(req.tenant, req.scopes, req.expiresIn, req.maxUses, now);
      && (t.Some? <==> MayIssue(req))
      && (t.Some? ==> ListSet(t.value.scopes) == Values(req.scopes))
      && (t.Some? && 0 <= req.expiresIn <= 2_592_000 ==>
            t.value.expires == now + (if req.expiresIn == 0 then 86_400 else req.expiresIn) * 1_000_000_000)
  {
    TokensOfValues(req.scopes);
    DedupeIsValues(req.scopes);
    LifetimeRule(req.expiresIn);
    if 0 <= req.expiresIn <= 2_592_000 {
      WrapUnique(req.expiresIn * SECOND, 0);
    }
  }

  lemma IssueAlone(policy: UriPolicy, db: Db, req: Request, w: World)
    requires Undisturbed(w) && req.Issue?
    ensures var (db', out) := Run(policy, db, Call(req, Start(req)), w, 0); IssuedAlone(db, req, w.env(0), db', out)
  {
    assert Quiet(w, 0);
    NewTokenExactly(req, w.env(0).now);
    RunStep(policy, db, Call(req, IssueStore), w, 0);
  }

  /** Revoking alone: exactly an unrevoked token of the tenant is marked. */
  ghost predicate TokenRevokedAlone(db: Db, req: Request, db': Db, out: Outcome)
    requires req.RevokeToken?
  {
    if req.h in db.tokens && db.tokens[req.h].tenant == req.tenant && !db.tokens[req.h].revoked then
      db' == db.(tokens := db.tokens[req.h := db.tokens[req.h].(revoked := true)]) && out == Removed
    else db' == db && out == Refused(NotFound)
  }

  lemma RevokeTokenAlone(policy: UriPolicy, db: Db, req: Request, w: World)
    requires Undisturbed(w) && req.RevokeToken?
    ensures var (db', out) := Run(policy, db, Call(req, Start(req)), w, 0); TokenRevokedAlone(db, req, db', out)
  {
    assert Quiet(w, 0);
    RunStep(policy, db, Call(req, RevokeRow), w, 0);
  }

  // ----- Registration -----

  /** The scopes asked for, or all that are allowed if none is, and that they are. */
  function Granted(wanted: seq<string>, allowed: seq<string>): seq<string> {
    if wanted == [] then allowed else wanted
  }

  predicate Inside(wanted: seq<string>, allowed: seq<string>) {
    ScopeSet(JoinScope(Granted(wanted, allowed))) <= ScopeSet(JoinScope(allowed))
  }

  /** The token is live and has a use left. */
  predicate Spendable(t: InitialToken, now: Time) {
    !t.revoked && now < t.expires && t.uses < t.maxUses
  }

  /**
   * Registering alone: a client is created exactly for valid metadata within the scopes of a live token of the
   * tenant with a use left; it has the validated metadata, those scopes and a new registration access token, and
   * one use is counted. Nothing else changes anything.
   */
  ghost predicate RegisteredAlone(policy: UriPolicy, db: Db, req: Request, w: World, db': Db, out: Outcome)
    requires req.Register?
  {
    var h := Sha256(req.token);
    if req.token == "" || h !in db.tokens || db.tokens[h].tenant != req.tenant then
      db' == db && out == Refused(InvalidToken)
    else
      var t, checked := db.tokens[h], Validate(policy, req.meta);
      if checked.Err? then RefusedFor(db, db', out, checked.error)
      else if !Inside(checked.value.scopes, t.scopes) then RefusedFor(db, db', out, InvalidClientMetadata)
      else if !Spendable(t, w.env(1).now) then db' == db && out == Refused(InvalidToken)
      else
        var e, md := w.env(2), checked.value.(scopes := Granted(checked.value.scopes, t.scopes));
        && out == RegisteredAs(e.newClientId, md)
        && db'.tokens == db.tokens[h := t.(uses := t.uses + 1)]
        && db'.clients ==
             db.clients[e.newClientId := Client(req.tenant, md, md.authMethod == "none", Sha256(e.newToken))]
  }

  lemma CreateAlone(policy: UriPolicy, db: Db, req: Request, md: Registered, w: World)
    requires Undisturbed(w) && req.Register?
    ensures var e := w.env(2);
      Run(policy, db, Call(req, RegisterCreate(md)), w, 2) ==
        (Db(db.tokens, db.clients[e.newClientId :=
              Client(req.tenant, md, md.authMethod == "none", Sha256(e.newToken))]),
         RegisteredAs(e.newClientId, md))
  {
    assert Quiet(w, 2);
    RunStep(policy, db, Call(req, RegisterCreate(md)), w, 2);
  }

  lemma SpendAlone(policy: UriPolicy, db: Db, req: Request, md: Registered, w: World)
    requires Undisturbed(w) && req.Register?
    requires Sha256(req.token) in db.tokens && db.tokens[Sha256(req.token)].tenant == req.tenant
    ensures var h, e := Sha256(req.token), w.env(2);
      Run(policy, db, Call(req, RegisterConsume(md)), w, 1) ==
        if !Spendable(db.tokens[h], w.env(1).now) then (db, Refused(InvalidToken))
        else
          (Db(db.tokens[h := db.tokens[h].(uses := db.tokens[h].uses + 1)],
              db.clients[e.newClientId := Client(req.tenant, md, md.authMethod == "none", Sha256(e.newToken))]),
           RegisteredAs(e.newClientId, md))
  {
    assert Quiet(w, 1);
    var h := Sha256(req.token);
    RunStep(policy, db, Call(req, RegisterConsume(md)), w, 1);
    if Spendable(db.tokens[h], w.env(1).now) {
      CreateAlone(policy, db.(tokens := db.tokens[h := db.tokens[h].(uses := db.tokens[h].uses + 1)]), req, md, w);
    }
  }

  lemma RegisterAlone(policy: UriPolicy, db: Db, req: Request, w: World)
    requires Undisturbed(w) && req.Register?
    ensures var (db', out) := Run(policy, db, Call(req, Start(req)), w, 0);
      RegisteredAlone(policy, db, req, w, db', out)
  {
    assert Quiet(w, 0);
    if req.token != "" {
      RunStep(policy, db, Call(req, RegisterRead), w, 0);
      var h := Sha256(req.token);
      if h in db.tokens && db.tokens[h].tenant == req.tenant {
        var checked := Validate(policy, req.meta);
        if checked.Ok? && Inside(checked.value.scopes, db.tokens[h].scopes) {
          SpendAlone(policy, db, req, checked.value.(scopes := Granted(checked.value.scopes, db.tokens[h].scopes)), w);
        }
      }
    }
  }

  // ----- The client's own calls -----

  /** The client exists in the tenant, and the token is its registration access token. */
  predicate Owns(db: Db, tenant: Id, id: string, token: string) {
    && token != "" && id in db.clients && db.clients[id].tenant == tenant
    && db.clients[id].registrationToken == Sha256(token)
  }

  /**
   * Updating alone: exactly the owner, sending the client's own id and valid metadata of the same type within the
   * scopes it has, changes the row, and only its metadata.
   */
  ghost predicate UpdatedAlone(policy: UriPolicy, db: Db, req: Request, db': Db, out: Outcome)
    requires req.Update?
  {
    var id := req.clientId;
    if !Owns(db, req.tenant, id, req.registrationToken) then db' == db && out == Refused(InvalidToken)
    else
      var c, checked := db.clients[id], Validate(policy, req.meta);
      if req.meta.clientId != id then RefusedFor(db, db', out, InvalidClientMetadata)
      else if checked.Err? then RefusedFor(db, db', out, checked.error)
      else if (checked.value.authMethod == "none") != c.isPublic || !Inside(checked.value.scopes, c.meta.scopes) then
        RefusedFor(db, db', out, InvalidClientMetadata)
      else
        var md := checked.value.(scopes := Granted(checked.value.scopes, c.meta.scopes));
        && out == UpdatedTo(md)
        && db' == Db(db.tokens, db.clients[id := Client(c.tenant, md, c.isPublic, c.registrationToken)])
  }

  lemma OverwriteAlone(policy: UriPolicy, db: Db, req: Request, c: Client, md: Registered, w: World)
    requires Undisturbed(w) && req.Update?
    ensures Run(policy, db, Call(req, UpdateSave(c.(meta := md))), w, 1) ==
      (Db(db.tokens, db.clients[req.clientId := Client(c.tenant, md, c.isPublic, c.registrationToken)]), UpdatedTo(md))
  {
    assert Quiet(w, 1);
    RunStep(policy, db, Call(req, UpdateSave(c.(meta := md))), w, 1);
  }

  lemma UpdateAlone(policy: UriPolicy, db: Db, req: Request, w: World)
    requires Undisturbed(w) && req.Update?
    ensures var (db', out) := Run(policy, db, Call(req, Start(req)), w, 0); UpdatedAlone(policy, db, req, db', out)
  {
    assert Quiet(w, 0);
    if req.registrationToken != "" {
      RunStep(policy, db, Call(req, UpdateRead), w, 0);
      if Owns(db, req.tenant, req.clientId, req.registrationToken) {
        var c := db.clients[req.clientId];
        var md := Replacement(policy, c, req.clientId, req.meta);
        if md.Ok? {
          OverwriteAlone(policy, db, req, c, md.value, w);
        }
      }
    }
  }

  /** Deleting alone: exactly the owner removes the row, and only it. */
  ghost predicate DeletedAlone(db: Db, req: Request, db': Db, out: Outcome)
    requires req.Delete?
  {
    if Owns(db, req.tenant, req.clientId, req.registrationToken) then
      db' == Db(db.tokens, db.clients - {req.clientId}) && out == Removed
    else db' == db && out == Refused(InvalidToken)
  }

  lemma DeleteAlone(policy: UriPolicy, db: Db, req: Request, w: World)
    requires Undisturbed(w) && req.Delete?
    ensures var (db', out) := Run(policy, db, Call(req, Start(req)), w, 0); DeletedAlone(db, req, db', out)
  {
    assert Quiet(w, 0) && Quiet(w, 1);
    if req.registrationToken != "" {
      RunStep(policy, db, Call(req, DeleteRead), w, 0);
      if Owns(db, req.tenant, req.clientId, req.registrationToken) {
        RunStep(policy, db, Call(req, DeleteRow), w, 1);
      }
    }
  }
}
