/**
 * The repositories and the registration service in the form of the source. Each service method is proved to
 * run the statements that RegistrationCalls gives for its call, whatever concurrent calls do in between.
 */
module RegistrationService {
  import opened Common
  import opened Scopes
  import opened ClientMetadata
  import opened RegistrationCalls
  import opened RegistrationRuns
  import opened RegistrationAlone

  class InitialAccessTokenRepository {
    var rows: map<Hash, InitialToken>

    constructor ()
      ensures rows == map[]
    {
      rows := map[];
    }

    method Create(h: Hash, token: InitialToken)
      modifies this
      ensures rows == old(rows)[h := token]
    {
      rows := rows[h := token];
    }

    method GetByHash(tenant: Id, h: Hash) returns (token: Option<InitialToken>)
      ensures token == if h in rows && rows[h].tenant == tenant then Some(rows[h]) else None
    {
      return if h in rows && rows[h].tenant == tenant then Some(rows[h]) else None;
    }

    /** Counts a use of a live token; of concurrent callers no more succeed than uses are left. */
    method Consume(tenant: Id, h: Hash, now: Time) returns (used: bool)
      modifies this
      ensures used <==> Consumable(old(rows), tenant, h, now)
      ensures rows == Consumed(old(rows), tenant, h, now)
      ensures used ==> rows[h].uses == old(rows)[h].uses + 1 <= rows[h].maxUses
    {
      if h !in rows || rows[h].tenant != tenant || rows[h].revoked || rows[h].expires <= now
         || rows[h].uses >= rows[h].maxUses {
        return false;
      }
      rows := rows[h := rows[h].(uses := rows[h].uses + 1)];
      return true;
    }

    method Revoke(tenant: Id, h: Hash) returns (found: bool)
      modifies this
      ensures found <==> Revocable(old(rows), tenant, h)
      ensures rows == if found then old(rows)[h := old(rows)[h].(revoked := true)] else old(rows)
    {
      if h !in rows || rows[h].tenant != tenant || rows[h].revoked {
        return false;
      }
      rows := rows[h := rows[h].(revoked := true)];
      return true;
    }
  }

  class ClientRepository {
    var rows: map<string, Client>

    constructor ()
      ensures rows == map[]
    {
      rows := map[];
    }

    method GetByClientId(tenant: Id, clientId: string) returns (client: Option<Client>)
      ensures client == if clientId in rows && rows[clientId].tenant == tenant then Some(rows[clientId]) else None
    {
      return if clientId in rows && rows[clientId].tenant == tenant then Some(rows[clientId]) else None;
    }

    /** Create and Update both write the whole row; Update inserts a row that is gone. */
    method Save(clientId: string, client: Client)
      modifies this
      ensures rows == old(rows)[clientId := client]
    {
      rows := rows[clientId := client];
    }

    method Delete(clientId: string)
      modifies this
      ensures rows == old(rows) - {clientId}
    {
      rows := rows - {clientId};
    }
  }

  // ----- The service -----

  class RegistrationServiceImpl {
    const tokens: InitialAccessTokenRepository
    const clients: ClientRepository
    const policy: UriPolicy

    constructor (tokens: InitialAccessTokenRepository, clients: ClientRepository, policy: UriPolicy)
      ensures this.tokens == tokens && this.clients == clients && this.policy == policy
    {
      this.tokens, this.clients, this.policy := tokens, clients, policy;
    }

    ghost function Tables(): Db
      reads tokens, clients
    {
      Db(tokens.rows, clients.rows)
    }

    method Interleave(w: World, k: nat)
      modifies tokens, clients
      ensures Tables() == w.others(k, old(Tables()))
    {
      var db := w.others(k, Db(tokens.rows, clients.rows));
      tokens.rows, clients.rows := db.tokens, db.clients;
    }

    /** The checks of CreateInitialAccessToken: the scopes, lifetime and uses of the new token. */
    method CheckTokenRequest(scopes: seq<string>, expiresIn: int, maxUses: int)
      returns (wanted: seq<string>, ttl: int, uses: int, ok: bool)
      ensures forall tenant, now ::
        NewToken(tenant, scopes, expiresIn, maxUses, now) ==
          (if ok then Some(InitialToken(tenant, wanted, uses, 0, false, now + ttl)) else None)
    {
      ttl, uses, ok := 0, 0, false;
      wanted := DedupeList(scopes);
      if |wanted| == 0 {
        return;
      }
      var valid := AllScopeTokens(wanted);
      if !valid {
        return;
      }
      ttl := Wrap64(expiresIn * SECOND);
      if expiresIn == 0 {
        ttl := DEFAULT_TTL;
      }
      if ttl <= 0 || ttl > MAX_TTL {
        return;
      }
      uses := if maxUses == 0 then 1 else maxUses;
      ok := 0 <= uses <= MAX_USES;
    }

    method CreateInitialAccessToken(tenant: Id, scopes: seq<string>, expiresIn: int, maxUses: int, w: World)
      returns (out: Outcome)
      modifies tokens, clients
      ensures var req := Issue(tenant, scopes, expiresIn, maxUses);
        && Run(policy, old(Tables()), Call(req, Start(req)), w, 0) == (Tables(), out)
        && (Undisturbed(w) ==> IssuedAlone(old(Tables()), req, w.env(0), Tables(), out))
    {
      if Undisturbed(w) {
        IssueAlone(policy, Tables(), Issue(tenant, scopes, expiresIn, maxUses), w);
      }
      ghost var req := Issue(tenant, scopes, expiresIn, maxUses);
      RunStep(policy, Tables(), Call(req, IssueStore), w, 0);
      Interleave(w, 0);
      var wanted, ttl, uses, ok := CheckTokenRequest(scopes, expiresIn, maxUses);
      if !ok {
        return Refused(BadMetadata(InvalidClientMetadata));
      }
      var e := w.env(0);
      if e.fails {
        return Refused(Errs);
      }
      tokens.Create(Sha256(e.newToken), InitialToken(tenant, wanted, uses, 0, false, e.now + ttl));
      return Issued(Sha256(e.newToken));
    }

    method RevokeInitialAccessToken(tenant: Id, h: Hash, w: World) returns (out: Outcome)
      modifies tokens, clients
      ensures var req := RevokeToken(tenant, h);
        && Run(policy, old(Tables()), Call(req, Start(req)), w, 0) == (Tables(), out)
        && (Undisturbed(w) ==> TokenRevokedAlone(old(Tables()), req, Tables(), out))
    {
      if Undisturbed(w) {
        RevokeTokenAlone(policy, Tables(), RevokeToken(tenant, h), w);
      }
      RunStep(policy, Tables(), Call(RevokeToken(tenant, h), RevokeRow), w, 0);
      Interleave(w, 0);
      if w.env(0).fails {
        return Refused(Errs);
      }
      var found := tokens.Revoke(tenant, h);
      return if found then Removed else Refused(NotFound);
    }

    /** The scopes to store, if they are within what is allowed. */
    method Narrow(wanted: seq<string>, allowed: seq<string>) returns (scopes: seq<string>, ok: bool)
      ensures ok <==> WithinScopes(wanted, allowed).Some?
      ensures ok ==> scopes == WithinScopes(wanted, allowed).value
    {
      scopes := wanted;
      if |scopes| == 0 {
        scopes := allowed;
      }
      ok := ScopeIsSubset(JoinScope(scopes), JoinScope(allowed));
    }

    method RegisterClient(tenant: Id, token: string, meta: Metadata, w: World) returns (out: Outcome)
      modifies tokens, clients
      ensures var req := Register(tenant, token, meta);
        && Run(policy, old(Tables()), Call(req, Start(req)), w, 0) == (Tables(), out)
        && (Undisturbed(w) ==> RegisteredAlone(policy, old(Tables()), req, w, Tables(), out))
    {
      if Undisturbed(w) {
        RegisterAlone(policy, Tables(), Register(tenant, token, meta), w);
      }
      ghost var req := Register(tenant, token, meta);
      if token == "" {
        return Refused(InvalidToken);
      }
      RunStep(policy, Tables(), Call(req, RegisterRead), w, 0);
      Interleave(w, 0);
      var iat := tokens.GetByHash(tenant, Sha256(token));
      if w.env(0).fails {
        return Refused(Errs);
      }
      if iat.None? {
        return Refused(InvalidToken);
      }
      var md := ValidateClientMetadata(policy, meta);
      if md.Err? {
        return Refused(BadMetadata(md.error));
      }
      var scopes, within := Narrow(md.value.scopes, iat.value.scopes);
      if !within {
        return Refused(BadMetadata(InvalidClientMetadata));
      }
      out := Spend(tenant, token, md.value.(scopes := scopes), req, w);
    }

    /** Register from the use of the token on. */
    method Spend(tenant: Id, token: string, md: Registered, ghost req: Request, w: World) returns (out: Outcome)
      requires req.Register? && req.tenant == tenant && req.token == token
      modifies tokens, clients
      ensures Run(policy, old(Tables()), Call(req, RegisterConsume(md)), w, 1) == (Tables(), out)
    {
      RunStep(policy, Tables(), Call(req, RegisterConsume(md)), w, 1);
      Interleave(w, 1);
      if w.env(1).fails {
        return Refused(Errs);
      }
      var used := tokens.Consume(tenant, Sha256(token), w.env(1).now);
      if !used {
        return Refused(InvalidToken);
      }
      RunStep(policy, Tables(), Call(req, RegisterCreate(md)), w, 2);
      Interleave(w, 2);
      var e := w.env(2);
      if e.fails {
        return Refused(Errs);
      }
      clients.Save(e.newClientId, Client(tenant, md, md.authMethod == NONE, Sha256(e.newToken)));
      return RegisteredAs(e.newClientId, md);
    }

    /** Read. */
    method ReadClient(tenant: Id, clientId: string, token: string) returns (r: Result<Metadata, Error>)
      ensures r.Ok? <==>
        && token != "" && clientId in clients.rows && clients.rows[clientId].tenant == tenant
        && clients.rows[clientId].registrationToken == Sha256(token)
      ensures r == if r.Ok? then Ok(Render(clientId, clients.rows[clientId].meta)) else Err(InvalidToken)
    {
      if token == "" {
        return Err(InvalidToken);
      }
      var client := clients.GetByClientId(tenant, clientId);
      if client.None? || client.value.registrationToken != Sha256(token) {
        return Err(InvalidToken);
      }
      var m := client.value.meta;
      var responseTypes := if AUTHORIZATION_CODE in m.grantTypes then [CODE] else [];
      return Ok(Metadata(clientId, m.redirectUris, m.postLogoutRedirectUris, m.authMethod, m.grantTypes,
                         responseTypes, m.name, JoinScope(m.scopes)));
    }

    method UpdateClient(tenant: Id, clientId: string, token: string, meta: Metadata, w: World) returns (out: Outcome)
      modifies tokens, clients
      ensures var req := Update(tenant, clientId, token, meta);
        && Run(policy, old(Tables()), Call(req, Start(req)), w, 0) == (Tables(), out)
        && (Undisturbed(w) ==> UpdatedAlone(policy, old(Tables()), req, Tables(), out))
    {
      if Undisturbed(w) {
        UpdateAlone(policy, Tables(), Update(tenant, clientId, token, meta), w);
      }
      ghost var req := Update(tenant, clientId, token, meta);
      if token == "" {
        return Refused(InvalidToken);
      }
      RunStep(policy, Tables(), Call(req, UpdateRead), w, 0);
      Interleave(w, 0);
      var client := clients.GetByClientId(tenant, clientId);
      if w.env(0).fails {
        return Refused(Errs);
      }
      if client.None? || client.value.registrationToken != Sha256(token) {
        return Refused(InvalidToken);
      }
      if meta.clientId != clientId {
        return Refused(BadMetadata(InvalidClientMetadata));
      }
      var md := ValidateClientMetadata(policy, meta);
      if md.Err? {
        return Refused(BadMetadata(md.error));
      }
      if Public(md.value) != client.value.isPublic {
        return Refused(BadMetadata(InvalidClientMetadata));
      }
      var scopes, within := Narrow(md.value.scopes, client.value.meta.scopes);
      if !within {
        return Refused(BadMetadata(InvalidClientMetadata));
      }
      out := Overwrite(clientId, client.value.(meta := md.value.(scopes := scopes)), req, w);
    }

    method Overwrite(clientId: string, client: Client, ghost req: Request, w: World) returns (out: Outcome)
      requires req.Update? && req.clientId == clientId
      modifies tokens, clients
      ensures Run(policy, old(Tables()), Call(req, UpdateSave(client)), w, 1) == (Tables(), out)
    {
      RunStep(policy, Tables(), Call(req, UpdateSave(client)), w, 1);
      Interleave(w, 1);
      if w.env(1).fails {
        return Refused(Errs);
      }
      clients.Save(clientId, client);
      return UpdatedTo(client.meta);
    }

    method DeleteClient(tenant: Id, clientId: string, token: string, w: World) returns (out: Outcome)
      modifies tokens, clients
      ensures var req := Delete(tenant, clientId, token);
        && Run(policy, old(Tables()), Call(req, Start(req)), w, 0) == (Tables(), out)
        && (Undisturbed(w) ==> DeletedAlone(old(Tables()), req, Tables(), out))
    {
      if Undisturbed(w) {
        DeleteAlone(policy, Tables(), Delete(tenant, clientId, token), w);
      }
      ghost var req := Delete(tenant, clientId, token);
      if token == "" {
        return Refused(InvalidToken);
      }
      RunStep(policy, Tables(), Call(req, DeleteRead), w, 0);
      Interleave(w, 0);
      var client := clients.GetByClientId(tenant, clientId);
      if w.env(0).fails {
        return Refused(Errs);
      }
      if client.None? || client.value.registrationToken != Sha256(token) {
        return Refused(InvalidToken);
      }
      RunStep(policy, Tables(), Call(req, DeleteRow), w, 1);
      Interleave(w, 1);
      if w.env(1).fails {
        return Refused(Errs);
      }
      clients.Delete(clientId);
      return Removed;
    }
  }
}
