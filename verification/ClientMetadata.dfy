/** Client metadata of dynamic registration and its normal form: internal/services/client_metadata.go. */
module ClientMetadata {
  import opened Common
  import opened Scopes

  /** The metadata a client sends or is shown (section 2 of RFC 7591). */
  datatype Metadata = Metadata(
    clientId: string, redirectUris: seq<string>, postLogoutRedirectUris: seq<string>, authMethod: string,
    grantTypes: seq<string>, responseTypes: seq<string>, clientName: string, scope: string)

  /** Metadata after validation and defaults. */
  datatype Registered = Registered(
    name: string, redirectUris: seq<string>, postLogoutRedirectUris: seq<string>,
    grantTypes: seq<string>, authMethod: string, scopes: seq<string>)

  datatype MetadataError = InvalidClientMetadata | InvalidRedirectUri

  /** Whether url.Parse takes a URI and its scheme, host and user information are acceptable. */
  type UriPolicy = string -> bool

  const AUTHORIZATION_CODE := "authorization_code"
  const REFRESH_TOKEN := "refresh_token"
  const CLIENT_CREDENTIALS := "client_credentials"
  const DEVICE_CODE := "urn:ietf:params:oauth:grant-type:device_code"
  const CODE := "code"
  const NONE := "none"
  const CLIENT_SECRET_BASIC := "client_secret_basic"
  const CLIENT_SECRET_POST := "client_secret_post"
  const DEFAULT_NAME := "Dynamically registered client"
  const MAX_URIS := 10
  const MAX_URI_LENGTH := 2000
  const MAX_NAME_LENGTH := 255
  const MAX_SCOPES := 50
  const MAX_SCOPE_LENGTH := 128

  // ----- Strings -----

  /** The length of s in UTF-8, which is what Go's len counts. */
  function Utf8Length(s: string): nat {
    if s == "" then 0
    else
      (if s[0] < '\U{80}' then 1 else if s[0] < '\U{800}' then 2 else if s[0] < '\U{10000}' then 3 else 4)
      + Utf8Length(s[1..])
  }

  /** unicode.IsControl */
  predicate IsControl(c: char) {
    c < '\U{20}' || '\U{7f}' <= c <= '\U{9f}'
  }

  predicate HasControl(s: string) {
    exists i :: 0 <= i < |s| && IsControl(s[i])
  }

  /** A scope-token (section 3.3 of RFC 6749) of at most 128 characters. */
  predicate ScopeToken(s: string) {
    && s != "" && Utf8Length(s) <= MAX_SCOPE_LENGTH
    && forall i :: 0 <= i < |s| ==> '\U{21}' <= s[i] <= '\U{7e}' && s[i] != '"' && s[i] != '\\'
  }

  method ValidScopeToken(s: string) returns (ok: bool)
    ensures ok <==> ScopeToken(s)
  {
    if s == "" || Utf8Length(s) > MAX_SCOPE_LENGTH {
      return false;
    }
    for i := 0 to |s|
      invariant forall j :: 0 <= j < i ==> '\U{21}' <= s[j] <= '\U{7e}' && s[j] != '"' && s[j] != '\\'
    {
      if s[i] < '\U{21}' || s[i] > '\U{7e}' || s[i] == '"' || s[i] == '\\' {
        return false;
      }
    }
    return true;
  }

  predicate ScopeTokens(scopes: seq<string>) {
    forall i :: 0 <= i < |scopes| ==> ScopeToken(scopes[i])
  }

  lemma TokensAreWords(scopes: seq<string>)
    requires ScopeTokens(scopes)
    ensures AllWords(scopes)
  {
  }

  // ----- Lists without repetition -----

  predicate NoRepeats(values: seq<string>) {
    forall i, j :: 0 <= i < j < |values| ==> values[i] != values[j]
  }

  /** What dedupe leaves alone: trimmed, non-empty values without repetition. */
  predicate Clean(values: seq<string>) {
    NoRepeats(values) && forall i :: 0 <= i < |values| ==> values[i] != "" && TrimSpace(values[i]) == values[i]
  }

  /** One turn of the loop of dedupe. */
  function Add(out: seq<string>, value: string): seq<string> {
    var v := TrimSpace(value);
    if v != "" && v !in out then out + [v] else out
  }

  /** dedupe: the values in order of first occurrence, trimmed, without blanks and repetitions. */
  function Dedupe(values: seq<string>): seq<string> {
    if values == [] then [] else Add(Dedupe(values[..|values| - 1]), values[|values| - 1])
  }

  lemma {:induction false} DedupeIsClean(values: seq<string>)
    ensures Clean(Dedupe(values))
  {
    if values != [] {
      var n := |values| - 1;
      DedupeIsClean(values[..n]);
      TrimIdempotent(values[n]);
    }
  }

  lemma {:induction false} DedupeKeepsClean(values: seq<string>)
    requires Clean(values)
    ensures Dedupe(values) == values
  {
    if values != [] {
      var n := |values| - 1;
      assert Clean(values[..n]);
      DedupeKeepsClean(values[..n]);
      assert values[n] != "" && TrimSpace(values[n]) == values[n];
      assert values[n] !in values[..n];
      assert values == values[..n] + [values[n]];
    }
  }

  /** Every non-blank value is kept, and nothing else is. */
  lemma {:induction false} DedupeHasAll(values: seq<string>, v: string)
    ensures v in Dedupe(values) <==> v != "" && exists i :: 0 <= i < |values| && TrimSpace(values[i]) == v
  {
    if values != [] {
      var n := |values| - 1;
      DedupeHasAll(values[..n], v);
      if i :| 0 <= i < |values| && TrimSpace(values[i]) == v {
        assert i < n ==> TrimSpace(values[..n][i]) == v;
      }
    }
  }

  method DedupeList(values: seq<string>) returns (out: seq<string>)
    ensures out == Dedupe(values) && Clean(out)
  {
    var seen: set<string> := {};
    out := [];
    for k := 0 to |values|
      invariant out == Dedupe(values[..k])
      invariant forall v :: v in seen <==> v in out
    {
      var v := TrimSpace(values[k]);
      if v != "" && v !in seen {
        seen := seen + {v};
        out := out + [v];
      }
      assert values[..k + 1][..k] == values[..k];
    }
    assert values[..|values|] == values;
    DedupeIsClean(values);
  }

  // ----- The rules -----

  predicate MayRegister(grant: string) {
    grant == AUTHORIZATION_CODE || grant == REFRESH_TOKEN || grant == CLIENT_CREDENTIALS || grant == DEVICE_CODE
  }

  predicate GrantsOk(grants: seq<string>) {
    && (forall i :: 0 <= i < |grants| ==> MayRegister(grants[i]))
    && (REFRESH_TOKEN in grants ==> AUTHORIZATION_CODE in grants || DEVICE_CODE in grants)
  }

  predicate ResponseTypesOk(types: seq<string>, grants: seq<string>) {
    types == [] || (AUTHORIZATION_CODE in grants && types == [CODE])
  }

  predicate AuthMethodOk(authMethod: string, grants: seq<string>) {
    && (authMethod == NONE || authMethod == CLIENT_SECRET_BASIC || authMethod == CLIENT_SECRET_POST)
    && (authMethod == NONE ==> CLIENT_CREDENTIALS !in grants)
  }

  predicate UriOk(policy: UriPolicy, uri: string) {
    Utf8Length(uri) <= MAX_URI_LENGTH && '#' !in uri && policy(uri)
  }

  predicate UrisOk(policy: UriPolicy, uris: seq<string>) {
    |uris| <= MAX_URIS && forall i :: 0 <= i < |uris| ==> UriOk(policy, uris[i])
  }

  predicate NameOk(name: string) {
    Utf8Length(name) <= MAX_NAME_LENGTH && !HasControl(name)
  }

  function GrantsOf(m: Metadata): seq<string> {
    var grants := Dedupe(m.grantTypes);
    if grants == [] then [AUTHORIZATION_CODE] else grants
  }

  function AuthMethodOf(m: Metadata): string {
    if m.authMethod == "" then CLIENT_SECRET_BASIC else m.authMethod
  }

  function NameOf(m: Metadata): string {
    var name := TrimSpace(m.clientName);
    if name == "" then DEFAULT_NAME else name
  }

  /** validateClientMetadata: the normal form, or the first rule that is broken. */
  function Validate(policy: UriPolicy, m: Metadata): Result<Registered, MetadataError> {
    var grants, scopes := GrantsOf(m), ParseScope(m.scope);
    var redirects, logouts := Dedupe(m.redirectUris), Dedupe(m.postLogoutRedirectUris);
    if !GrantsOk(grants) then Err(InvalidClientMetadata)
    else if !ResponseTypesOk(Dedupe(m.responseTypes), grants) then Err(InvalidClientMetadata)
    else if !AuthMethodOk(AuthMethodOf(m), grants) then Err(InvalidClientMetadata)
    else if !UrisOk(policy, redirects) then Err(InvalidRedirectUri)
    else if AUTHORIZATION_CODE in grants && redirects == [] then Err(InvalidRedirectUri)
    else if !UrisOk(policy, logouts) then Err(InvalidRedirectUri)
    else if !NameOk(NameOf(m)) then Err(InvalidClientMetadata)
    else if |scopes| > MAX_SCOPES || !ScopeTokens(scopes) then Err(InvalidClientMetadata)
    else Ok(Registered(NameOf(m), redirects, logouts, grants, AuthMethodOf(m), scopes))
  }

  // ----- The loops of validateClientMetadata -----

  method ValidateRegisteredUris(policy: UriPolicy, raw: seq<string>) returns (r: Result<seq<string>, MetadataError>)
    ensures r == if UrisOk(policy, Dedupe(raw)) then Ok(Dedupe(raw)) else Err(InvalidRedirectUri)
  {
    var uris := DedupeList(raw);
    if |uris| > MAX_URIS {
      return Err(InvalidRedirectUri);
    }
    for k := 0 to |uris|
      invariant forall i :: 0 <= i < k ==> UriOk(policy, uris[i])
    {
      if Utf8Length(uris[k]) > MAX_URI_LENGTH || '#' in uris[k] || !policy(uris[k]) {
        return Err(InvalidRedirectUri);
      }
    }
    return Ok(uris);
  }

  /** The loop over the grant types; has collects them. */
  method CheckGrantTypes(grants: seq<string>) returns (has: set<string>, ok: bool)
    ensures ok <==> forall i :: 0 <= i < |grants| ==> MayRegister(grants[i])
    ensures ok ==> has == ListSet(grants)
  {
    has := {};
    for k := 0 to |grants|
      invariant forall i :: 0 <= i < k ==> MayRegister(grants[i])
      invariant has == ListSet(grants[..k])
    {
      if !MayRegister(grants[k]) {
        return has, false;
      }
      has := has + {grants[k]};
      assert grants[..k + 1] == grants[..k] + [grants[k]];
    }
    assert grants[..|grants|] == grants;
    return has, true;
  }

  /** The checks on grant types, response types and the authentication method that depend on each other. */
  method ValidateGrants(m: Metadata) returns (r: Result<(seq<string>, string), MetadataError>)
    ensures r.Ok? <==> GrantsOk(GrantsOf(m)) && ResponseTypesOk(Dedupe(m.responseTypes), GrantsOf(m))
                       && AuthMethodOk(AuthMethodOf(m), GrantsOf(m))
    ensures r == if r.Ok? then Ok((GrantsOf(m), AuthMethodOf(m))) else Err(InvalidClientMetadata)
  {
    var grants := DedupeList(m.grantTypes);
    if |grants| == 0 {
      grants := [AUTHORIZATION_CODE];
    }
    var has, known := CheckGrantTypes(grants);
    if !known {
      return Err(InvalidClientMetadata);
    }
    if REFRESH_TOKEN in has && AUTHORIZATION_CODE !in has && DEVICE_CODE !in has {
      return Err(InvalidClientMetadata);
    }
    var responseTypes := DedupeList(m.responseTypes);
    if |responseTypes| == 0 {
    } else if AUTHORIZATION_CODE in has && |responseTypes| == 1 && responseTypes[0] == CODE {
    } else {
      return Err(InvalidClientMetadata);
    }
    var authMethod := m.authMethod;
    if authMethod == "" {
      authMethod := CLIENT_SECRET_BASIC;
    } else if authMethod != NONE && authMethod != CLIENT_SECRET_BASIC && authMethod != CLIENT_SECRET_POST {
      return Err(InvalidClientMetadata);
    }
    if authMethod == NONE && CLIENT_CREDENTIALS in has {
      return Err(InvalidClientMetadata);
    }
    return Ok((grants, authMethod));
  }

  method AllScopeTokens(scopes: seq<string>) returns (ok: bool)
    ensures ok <==> ScopeTokens(scopes)
  {
    for k := 0 to |scopes|
      invariant ScopeTokens(scopes[..k])
    {
      var valid := ValidScopeToken(scopes[k]);
      if !valid {
        return false;
      }
    }
    assert scopes[..|scopes|] == scopes;
    return true;
  }

  method ValidateScopes(scope: string) returns (scopes: seq<string>, ok: bool)
    ensures scopes == ParseScope(scope) && (ok <==> |scopes| <= MAX_SCOPES && ScopeTokens(scopes))
  {
    scopes := ParseScope(scope);
    if |scopes| > MAX_SCOPES {
      return scopes, false;
    }
    ok := AllScopeTokens(scopes);
  }

  method ValidateClientMetadata(policy: UriPolicy, m: Metadata) returns (r: Result<Registered, MetadataError>)
    ensures r == Validate(policy, m)
  {
    var checked := ValidateGrants(m);
    if checked.Err? {
      return Err(checked.error);
    }
    var (grants, authMethod) := checked.value;
    var redirects := ValidateRegisteredUris(policy, m.redirectUris);
    if redirects.Err? {
      return Err(redirects.error);
    }
    if AUTHORIZATION_CODE in grants && |redirects.value| == 0 {
      return Err(InvalidRedirectUri);
    }
    var logouts := ValidateRegisteredUris(policy, m.postLogoutRedirectUris);
    if logouts.Err? {
      return Err(logouts.error);
    }
    var name := TrimSpace(m.clientName);
    if name == "" {
      name := DEFAULT_NAME;
    }
    if Utf8Length(name) > MAX_NAME_LENGTH || HasControl(name) {
      return Err(InvalidClientMetadata);
    }
    var scopes, scopesOk := ValidateScopes(m.scope);
    if !scopesOk {
      return Err(InvalidClientMetadata);
    }
    return Ok(Registered(name, redirects.value, logouts.value, grants, authMethod, scopes));
  }

  // ----- The normal form is a fixpoint -----

  predicate Public(r: Registered) {
    r.authMethod == NONE
  }

  /** The rules that registered metadata satisfies, one by one. */
  datatype Rule = GrantRule | AuthRule | RedirectRule | LogoutRule | NameRule | ScopeRule

  ghost predicate Obeys(policy: UriPolicy, r: Registered, rule: Rule) {
    match rule
    case GrantRule => r.grantTypes != [] && Clean(r.grantTypes) && GrantsOk(r.grantTypes)
    case AuthRule => AuthMethodOk(r.authMethod, r.grantTypes)
    case RedirectRule =>
      && Clean(r.redirectUris) && UrisOk(policy, r.redirectUris)
      && (AUTHORIZATION_CODE in r.grantTypes ==> r.redirectUris != [])
    case LogoutRule => Clean(r.postLogoutRedirectUris) && UrisOk(policy, r.postLogoutRedirectUris)
    case NameRule => r.name != "" && TrimSpace(r.name) == r.name && NameOk(r.name)
    case ScopeRule => r.scopes != [] && ScopeTokens(r.scopes)
  }

  /** What every registered client's metadata satisfies. A scope list taken over from the initial access
      token may have more than MAX_SCOPES elements. */
  ghost predicate Normal(policy: UriPolicy, r: Registered) {
    forall rule :: Obeys(policy, r, rule)
  }

  /** response: how registered metadata is shown. */
  function Render(clientId: string, r: Registered): Metadata {
    Metadata(clientId, r.redirectUris, r.postLogoutRedirectUris, r.authMethod, r.grantTypes,
             if AUTHORIZATION_CODE in r.grantTypes then [CODE] else [], r.name, JoinScope(r.scopes))
  }

  lemma CodeIsClean()
    ensures Clean([CODE]) && Clean([AUTHORIZATION_CODE]) && TrimSpace(DEFAULT_NAME) == DEFAULT_NAME
  {
    assert !IsSpace(CODE[0]) && !IsSpace(CODE[|CODE| - 1]);
    assert !IsSpace(AUTHORIZATION_CODE[0]) && !IsSpace(AUTHORIZATION_CODE[|AUTHORIZATION_CODE| - 1]);
    assert !IsSpace(DEFAULT_NAME[0]) && !IsSpace(DEFAULT_NAME[|DEFAULT_NAME| - 1]);
  }

  /** Validation yields normal metadata, up to scopes it leaves to the caller to fill in. */
  lemma ValidIsNormal(policy: UriPolicy, m: Metadata, scopes: seq<string>)
    requires Validate(policy, m).Ok? && scopes != [] && ScopeTokens(scopes)
    ensures Normal(policy, Validate(policy, m).value.(scopes := scopes))
  {
    CodeIsClean();
    DedupeIsClean(m.grantTypes);
    DedupeIsClean(m.redirectUris);
    DedupeIsClean(m.postLogoutRedirectUris);
    TrimIdempotent(m.clientName);
  }

  lemma RenderedLists(policy: UriPolicy, clientId: string, r: Registered)
    requires Obeys(policy, r, GrantRule) && Obeys(policy, r, RedirectRule) && Obeys(policy, r, LogoutRule)
    ensures var m := Render(clientId, r);
      && GrantsOf(m) == r.grantTypes && Dedupe(m.responseTypes) == m.responseTypes
      && Dedupe(m.redirectUris) == r.redirectUris && Dedupe(m.postLogoutRedirectUris) == r.postLogoutRedirectUris
  {
    CodeIsClean();
    DedupeKeepsClean(r.grantTypes);
    DedupeKeepsClean(r.redirectUris);
    DedupeKeepsClean(r.postLogoutRedirectUris);
    DedupeKeepsClean([CODE]);
  }

  lemma RenderedTexts(policy: UriPolicy, clientId: string, r: Registered)
    requires Obeys(policy, r, AuthRule) && Obeys(policy, r, NameRule) && Obeys(policy, r, ScopeRule)
    ensures var m := Render(clientId, r);
      NameOf(m) == r.name && AuthMethodOf(m) == r.authMethod && ParseScope(m.scope) == r.scopes
  {
    TokensAreWords(r.scopes);
    ParseJoin(r.scopes);
  }

  /** What a client is shown validates to what is registered, exactly when it has at most 50 scopes
      (section 2.2 of RFC 7592). */
  lemma RenderIsFixpoint(policy: UriPolicy, clientId: string, r: Registered)
    requires Normal(policy, r)
    ensures Validate(policy, Render(clientId, r)) ==
      if |r.scopes| <= MAX_SCOPES then Ok(r) else Err(InvalidClientMetadata)
  {
    assert Obeys(policy, r, GrantRule) && Obeys(policy, r, AuthRule) && Obeys(policy, r, RedirectRule);
    assert Obeys(policy, r, LogoutRule) && Obeys(policy, r, NameRule) && Obeys(policy, r, ScopeRule);
    RenderedLists(policy, clientId, r);
    RenderedTexts(policy, clientId, r);
  }
}
