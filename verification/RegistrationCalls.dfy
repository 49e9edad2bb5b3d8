/**
 * The initial access tokens and registered clients, and the calls of
 * internal/services/registration_service_impl.go as programs whose steps are single statements.
 * Clock readings are in nanoseconds here.
 */
module RegistrationCalls {
  import opened Common
  import opened Scopes
  import opened ClientMetadata

  /** An initial_access_tokens row, keyed by the hash of the token. */
  datatype InitialToken = InitialToken(
    tenant: Id, scopes: seq<string>, maxUses: int, uses: int, revoked: bool, expires: Time)

  /** A dynamically registered client, keyed by its client_id. */
  datatype Client = Client(tenant: Id, meta: Registered, isPublic: bool, registrationToken: Hash)

  datatype Db = Db(tokens: map<Hash, InitialToken>, clients: map<string, Client>)

  datatype Error = InvalidToken | BadMetadata(error: MetadataError) | NotFound | Errs

  // ----- CreateInitialAccessToken -----

  const SECOND := 1_000_000_000
  const DEFAULT_TTL := 86_400 * SECOND
  const MAX_TTL := 2_592_000 * SECOND
  const MAX_USES := 1000

  /** The value of an int64 computation whose exact result is x. */
  function Wrap64(x: int): int {
    (x + 0x8000_0000_0000_0000) % 0x1_0000_0000_0000_0000 - 0x8000_0000_0000_0000
  }

  function Ttl(expiresIn: int): int {
    if expiresIn == 0 then DEFAULT_TTL else Wrap64(expiresIn * SECOND)
  }

  function Uses(maxUses: int): int {
    if maxUses == 0 then 1 else maxUses
  }

  /** The row CreateInitialAccessToken stores, or None if it refuses the request. */
  function NewToken(tenant: Id, scopes: seq<string>, expiresIn: int, maxUses: int, now: Time): Option<InitialToken> {
    var wanted := Dedupe(scopes);
    if wanted == [] || !ScopeTokens(wanted) then None
    else if Ttl(expiresIn) <= 0 || Ttl(expiresIn) > MAX_TTL then None
    else if Uses(maxUses) < 0 || Uses(maxUses) > MAX_USES then None
    else Some(InitialToken(tenant, wanted, Uses(maxUses), 0, false, now + Ttl(expiresIn)))
  }

  /** The documented rule: absent, or between one second and 30 days. */
  predicate LifetimeAllowed(expiresIn: int) {
    0 <= expiresIn <= 2_592_000
  }

  predicate LifetimeAccepted(expiresIn: int) {
    0 < Ttl(expiresIn) <= MAX_TTL
  }

  const WORD := 0x1_0000_0000_0000_0000

  /** The product of a lifetime and a second lies within 30 days above some multiple, other than 0, of 2^64. */
  predicate NearWord(expiresIn: int, q: int) {
    q != 0 && q * WORD < expiresIn * SECOND <= q * WORD + MAX_TTL
  }

  lemma WrapIsRemainder(x: int) returns (q: int)
    ensures Wrap64(x) == x - q * WORD && -0x8000_0000_0000_0000 <= Wrap64(x) < 0x8000_0000_0000_0000
    ensures q == 0 <==> -0x8000_0000_0000_0000 <= x < 0x8000_0000_0000_0000
  {
    q := (x + 0x8000_0000_0000_0000) / WORD;
  }

  /** A number that is small after a multiple of 2^64 is taken off wraps to what is left. */
  lemma WrapUnique(x: int, q: int)
    requires -0x8000_0000_0000_0000 <= x - q * WORD < 0x8000_0000_0000_0000
    ensures Wrap64(x) == x - q * WORD
  {
    var p := WrapIsRemainder(x);
  }

  /**
   * Which lifetimes are accepted: those the documentation allows, and those whose product with a second lies
   * within 30 days above a multiple of 2^64. So the documented rule is enforced exactly for the other lifetimes.
   */
  lemma LifetimeRule(expiresIn: int)
    ensures LifetimeAccepted(expiresIn) <==> LifetimeAllowed(expiresIn) || exists q :: NearWord(expiresIn, q)
    ensures (LifetimeAccepted(expiresIn) <==> LifetimeAllowed(expiresIn)) <==> !exists q :: NearWord(expiresIn, q)
  {
    if expiresIn != 0 {
      var x := expiresIn * SECOND;
      var p := WrapIsRemainder(x);
      forall q | NearWord(expiresIn, q) ensures 0 < Wrap64(x) <= MAX_TTL && !LifetimeAllowed(expiresIn) {
        WrapUnique(x, q);
      }
      if LifetimeAccepted(expiresIn) && !LifetimeAllowed(expiresIn) {
        assert NearWord(expiresIn, p);
      }
      if LifetimeAllowed(expiresIn) {
        WrapUnique(x, 0);
      }
    }
  }

  /** A caller whose lifetimes stay within 292 years either way gets the documented rule. */
  lemma LifetimeGuard(expiresIn: int)
    requires -9_223_372_036 <= expiresIn <= 9_223_372_036
    ensures LifetimeAccepted(expiresIn) <==> LifetimeAllowed(expiresIn)
  {
    if expiresIn != 0 {
      WrapUnique(expiresIn * SECOND, 0);
    }
  }

  /** 18446744074 seconds, over 580 years, is accepted as 0.29 seconds. */
  lemma LifetimeWraps()
    ensures LifetimeAccepted(18_446_744_074) && !LifetimeAllowed(18_446_744_074)
    ensures Ttl(18_446_744_074) == 290_448_384
  {
  }

  // ----- The calls -----

  datatype Request =
    | Issue(tenant: Id, scopes: seq<string>, expiresIn: int, maxUses: int)
    | RevokeToken(tenant: Id, h: Hash)
    | Register(tenant: Id, token: string, meta: Metadata)
    | Update(tenant: Id, clientId: string, registrationToken: string, meta: Metadata)
    | Delete(tenant: Id, clientId: string, registrationToken: string)

  datatype Outcome =
    | Issued(h: Hash)
    | RegisteredAs(clientId: string, meta: Registered)
    | UpdatedTo(meta: Registered)
    | Removed
    | Refused(error: Error)

  datatype Pc =
    | IssueStore
    | RevokeRow
    | RegisterRead
    | RegisterConsume(md: Registered)
    | RegisterCreate(md: Registered)
    | UpdateRead
    | UpdateSave(client: Client)
    | DeleteRead
    | DeleteRow
    | Done(outcome: Outcome)

  datatype Call = Call(req: Request, pc: Pc)

  /** The clock, whether the storage call or random source errs, and fresh random values. */
  datatype Env = Env(now: Time, fails: bool, newToken: string, newClientId: string)

  datatype Effect =
    | Nothing
    | AddToken(h: Hash, token: InitialToken)
    | RevokeOne(tenant: Id, h: Hash)
    | Consume(tenant: Id, h: Hash, now: Time)
    | SaveClient(clientId: string, client: Client)
    | DropClient(clientId: string)

  function FindToken(db: Db, tenant: Id, h: Hash): Option<InitialToken> {
    if h in db.tokens && db.tokens[h].tenant == tenant then Some(db.tokens[h]) else None
  }

  /** The condition of the counting update. */
  predicate Consumable(tokens: map<Hash, InitialToken>, tenant: Id, h: Hash, now: Time) {
    h in tokens && tokens[h].tenant == tenant && !tokens[h].revoked && tokens[h].expires > now
    && tokens[h].uses < tokens[h].maxUses
  }

  function Consumed(tokens: map<Hash, InitialToken>, tenant: Id, h: Hash, now: Time): map<Hash, InitialToken> {
    if Consumable(tokens, tenant, h, now) then tokens[h := tokens[h].(uses := tokens[h].uses + 1)] else tokens
  }

  predicate Revocable(tokens: map<Hash, InitialToken>, tenant: Id, h: Hash) {
    h in tokens && tokens[h].tenant == tenant && !tokens[h].revoked
  }

  function Perform(db: Db, effect: Effect): Db {
    match effect
    case Nothing => db
    case AddToken(h, token) => db.(tokens := db.tokens[h := token])
    case RevokeOne(tenant, h) =>
      if Revocable(db.tokens, tenant, h) then db.(tokens := db.tokens[h := db.tokens[h].(revoked := true)]) else db
    case Consume(tenant, h, now) => db.(tokens := Consumed(db.tokens, tenant, h, now))
    case SaveClient(id, client) => db.(clients := db.clients[id := client])
    case DropClient(id) => db.(clients := db.clients - {id})
  }

  /** Requested scopes, or all that are allowed; None if they go beyond. */
  function WithinScopes(wanted: seq<string>, allowed: seq<string>): Option<seq<string>> {
    var scopes := if wanted == [] then allowed else wanted;
    if ScopeSet(JoinScope(scopes)) <= ScopeSet(JoinScope(allowed)) then Some(scopes) else None
  }

  /** What Register will store for a token that allows the given scopes. */
  function Proposal(policy: UriPolicy, meta: Metadata, allowed: seq<string>): Result<Registered, MetadataError> {
    var checked := Validate(policy, meta);
    if checked.Err? then checked
    else
      var scopes := WithinScopes(checked.value.scopes, allowed);
      if scopes.None? then Err(InvalidClientMetadata) else Ok(checked.value.(scopes := scopes.value))
  }

  /** What Update will store for a client. */
  function Replacement(policy: UriPolicy, c: Client, clientId: string, meta: Metadata)
    : Result<Registered, MetadataError>
  {
    if meta.clientId != clientId then Err(InvalidClientMetadata)
    else
      var checked := Validate(policy, meta);
      if checked.Err? then checked
      else if Public(checked.value) != c.isPublic then Err(InvalidClientMetadata)
      else
        var scopes := WithinScopes(checked.value.scopes, c.meta.scopes);
        if scopes.None? then Err(InvalidClientMetadata) else Ok(checked.value.(scopes := scopes.value))
  }

  /** authorize: the client, if the registration access token is its own. */
  function Authorized(db: Db, tenant: Id, clientId: string, token: string): Option<Client> {
    if clientId in db.clients && db.clients[clientId].tenant == tenant
       && db.clients[clientId].registrationToken == Sha256(token)
    then Some(db.clients[clientId]) else None
  }

  function Start(req: Request): Pc {
    match req
    case Issue(_, _, _, _) => IssueStore
    case RevokeToken(_, _) => RevokeRow
    case Register(_, token, _) => if token == "" then Done(Refused(InvalidToken)) else RegisterRead
    case Update(_, _, token, _) => if token == "" then Done(Refused(InvalidToken)) else UpdateRead
    case Delete(_, _, token) => if token == "" then Done(Refused(InvalidToken)) else DeleteRead
  }

  function Decide(policy: UriPolicy, db: Db, c: Call, e: Env): (Effect, Pc)
    requires WellFormed(c)
  {
    match c.pc
    case IssueStore =>
      var token := NewToken(c.req.tenant, c.req.scopes, c.req.expiresIn, c.req.maxUses, e.now);
      if token.None? then (Nothing, Done(Refused(BadMetadata(InvalidClientMetadata))))
      else if e.fails then (Nothing, Done(Refused(Errs)))
      else (AddToken(Sha256(e.newToken), token.value), Done(Issued(Sha256(e.newToken))))
    case RevokeRow =>
      if e.fails then (Nothing, Done(Refused(Errs)))
      else (RevokeOne(c.req.tenant, c.req.h),
            Done(if Revocable(db.tokens, c.req.tenant, c.req.h) then Removed else Refused(NotFound)))
    case RegisterRead =>
      var token := FindToken(db, c.req.tenant, Sha256(c.req.token));
      if e.fails then (Nothing, Done(Refused(Errs)))
      else if token.None? then (Nothing, Done(Refused(InvalidToken)))
      else
        var md := Proposal(policy, c.req.meta, token.value.scopes);
        (Nothing, if md.Err? then Done(Refused(BadMetadata(md.error))) else RegisterConsume(md.value))
    case RegisterConsume(md) =>
      var h := Sha256(c.req.token);
      if e.fails then (Nothing, Done(Refused(Errs)))
      else (Consume(c.req.tenant, h, e.now),
            if Consumable(db.tokens, c.req.tenant, h, e.now) then RegisterCreate(md) else Done(Refused(InvalidToken)))
    case RegisterCreate(md) =>
      if e.fails then (Nothing, Done(Refused(Errs)))
      else (SaveClient(e.newClientId, Client(c.req.tenant, md, Public(md), Sha256(e.newToken))),
            Done(RegisteredAs(e.newClientId, md)))
    case UpdateRead =>
      var client := Authorized(db, c.req.tenant, c.req.clientId, c.req.registrationToken);
      if e.fails then (Nothing, Done(Refused(Errs)))
      else if client.None? then (Nothing, Done(Refused(InvalidToken)))
      else
        var md := Replacement(policy, client.value, c.req.clientId, c.req.meta);
        (Nothing, if md.Err? then Done(Refused(BadMetadata(md.error))) else UpdateSave(client.value.(meta := md.value)))
    case UpdateSave(client) =>
      if e.fails then (Nothing, Done(Refused(Errs)))
      else (SaveClient(c.req.clientId, client), Done(UpdatedTo(client.meta)))
    case DeleteRead =>
      var client := Authorized(db, c.req.tenant, c.req.clientId, c.req.registrationToken);
      if e.fails then (Nothing, Done(Refused(Errs)))
      else if client.None? then (Nothing, Done(Refused(InvalidToken)))
      else (Nothing, DeleteRow)
    case DeleteRow => if e.fails then (Nothing, Done(Refused(Errs))) else (DropClient(c.req.clientId), Done(Removed))
    case Done(_) => (Nothing, c.pc)
  }

  predicate WellFormed(c: Call) {
    match c.pc
    case IssueStore => c.req.Issue?
    case RevokeRow => c.req.RevokeToken?
    case RegisterRead => c.req.Register?
    case RegisterConsume(_) => c.req.Register?
    case RegisterCreate(_) => c.req.Register?
    case UpdateRead => c.req.Update?
    case UpdateSave(_) => c.req.Update?
    case DeleteRead => c.req.Delete?
    case DeleteRow => c.req.Delete?
    case Done(_) => true
  }

  function Rank(pc: Pc): nat {
    match pc
    case RegisterRead => 3
    case RegisterConsume(_) => 2
    case UpdateRead => 2
    case DeleteRead => 2
    case Done(_) => 0
    case _ => 1
  }

  lemma StepStaysWellFormed(policy: UriPolicy, db: Db, c: Call, e: Env)
    requires WellFormed(c)
    ensures WellFormed(Call(c.req, Decide(policy, db, c, e).1))
  {
  }

  /** Every call runs at most three statements. */
  lemma StepsTerminate(policy: UriPolicy, db: Db, c: Call, e: Env)
    requires WellFormed(c) && !c.pc.Done?
    ensures Rank(Decide(policy, db, c, e).1) < Rank(c.pc) <= 3
  {
  }

  // ----- What Register and Update keep -----

  lemma JoinedTokens(scopes: seq<string>)
    requires ScopeTokens(scopes)
    ensures ScopeSet(JoinScope(scopes)) == ListSet(scopes)
  {
    TokensAreWords(scopes);
    ParseJoin(scopes);
  }

  lemma WithinIsSubset(wanted: seq<string>, allowed: seq<string>)
    requires ScopeTokens(wanted) && ScopeTokens(allowed) && allowed != []
    requires WithinScopes(wanted, allowed).Some?
    ensures var scopes := WithinScopes(wanted, allowed).value;
      scopes != [] && ScopeTokens(scopes) && ListSet(scopes) <= ListSet(allowed)
  {
    JoinedTokens(allowed);
    JoinedTokens(if wanted == [] then allowed else wanted);
  }

  /** A registration is normal and stays within the scopes of the token. */
  lemma ProposalIsNormal(policy: UriPolicy, meta: Metadata, allowed: seq<string>)
    requires Proposal(policy, meta, allowed).Ok? && ScopeTokens(allowed) && allowed != []
    ensures var md := Proposal(policy, meta, allowed).value;
      Normal(policy, md) && ListSet(md.scopes) <= ListSet(allowed)
  {
    var checked := Validate(policy, meta).value;
    WithinIsSubset(checked.scopes, allowed);
    ValidIsNormal(policy, meta, WithinScopes(checked.scopes, allowed).value);
  }

  /** An update is normal, only narrows the scopes, and keeps the client type. */
  lemma ReplacementIsNormal(policy: UriPolicy, c: Client, clientId: string, meta: Metadata)
    requires Replacement(policy, c, clientId, meta).Ok? && Normal(policy, c.meta)
    ensures var md := Replacement(policy, c, clientId, meta).value;
      Normal(policy, md) && ListSet(md.scopes) <= ListSet(c.meta.scopes) && Public(md) == c.isPublic
  {
    assert Obeys(policy, c.meta, ScopeRule);
    var checked := Validate(policy, meta).value;
    WithinIsSubset(checked.scopes, c.meta.scopes);
    ValidIsNormal(policy, meta, WithinScopes(checked.scopes, c.meta.scopes).value);
  }

  /**
   * Sending a client's metadata as Read returns it back to Update succeeds, and leaves all of it as it is,
   * exactly when the client has at most 50 scopes; a client that took over a longer scope list from its
   * initial access token is refused (section 2.2 of RFC 7592).
   */
  lemma ReadThenUpdate(policy: UriPolicy, c: Client, clientId: string)
    requires Normal(policy, c.meta) && c.isPublic == Public(c.meta)
    ensures Replacement(policy, c, clientId, Render(clientId, c.meta)) ==
      if |c.meta.scopes| <= MAX_SCOPES then Ok(c.meta) else Err(InvalidClientMetadata)
  {
    RenderIsFixpoint(policy, clientId, c.meta);
  }
}
