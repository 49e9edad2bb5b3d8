/** Token exchange (RFC 8693): ExchangeToken of internal/services/device_token_exchange.go. */
module TokenExchange {
  import opened Common
  import opened Scopes

  /** The claims of a live access token. */
  datatype Subject = Subject(sub: string, user: Option<Id>, scope: string)

  /** The issued delegation token and its row. */
  datatype Delegated = Delegated(
    tenant: Id, sub: string, user: Option<Id>, actor: Id, scope: string, family: Id, expires: Time)

  datatype Error = InvalidGrant | InvalidScope | StoreFailed

  /** Whether every scope of a lies in b. */
  predicate NarrowerThan(a: string, b: string) {
    ScopeSet(a) <= ScopeSet(b)
  }

  /** What an exchange may be asked for: a scope within the subject token's (its whole scope when none is
      named), and that within the registration of the acting client. */
  predicate Permitted(subject: Subject, registered: seq<string>, requested: string) {
    && (requested != "" ==> NarrowerThan(requested, subject.scope))
    && NarrowerThan(if requested == "" then subject.scope else requested, JoinScope(registered))
  }

  /**
   * ExchangeToken, after the subject token has been looked up; subject is None when its type is not an
   * access token or it is not live.
   */
  method ExchangeToken(tenant: Id, client: Id, registered: seq<string>, subject: Option<Subject>, requested: string,
                       family: Id, now: Time, ttl: nat, storeFails: bool) returns (r: Result<Delegated, Error>)
    ensures r.Ok? <==> subject.Some? && Permitted(subject.value, registered, requested) && !storeFails
    ensures r == Err(InvalidGrant) <==> subject.None?
    ensures r == Err(InvalidScope) <==> subject.Some? && !Permitted(subject.value, registered, requested)
    ensures r.Ok? ==> ScopeSet(r.value.scope) <= ScopeSet(subject.value.scope) * ScopeSet(JoinScope(registered))
    ensures r.Ok? ==> ScopeSet(r.value.scope) == ScopeSet(if requested == "" then subject.value.scope else requested)
    ensures r.Ok? ==> r.value.sub == subject.value.sub && r.value.user == subject.value.user && r.value.actor == client
    ensures r.Ok? ==> r.value.tenant == tenant && r.value.family == family && r.value.expires == now + ttl
  {
    if subject.None? {
      return Err(InvalidGrant);
    }
    var scope := subject.value.scope;
    if requested != "" {
      var within := ScopeIsSubset(requested, subject.value.scope);
      if !within {
        return Err(InvalidScope);
      }
      ParseJoinParse(requested);
      scope := JoinScope(ParseScope(requested));
    }
    var registration := ValidateScopeForClient(registered, scope);
    if registration.Err? {
      return Err(InvalidScope);
    }
    if storeFails {
      return Err(StoreFailed);
    }
    return Ok(Delegated(tenant, subject.value.sub, subject.value.user, client, scope, family, now + ttl));
  }
}
