/**
 * The registration rules, told by the sets of values that a client sends (section 2 of RFC 7591), and that
 * validation enforces exactly these.
 */
module MetadataRules {
  import opened Common
  import opened Scopes
  import opened ClientMetadata

  /** The values of a list, trimmed; blanks do not count. */
  ghost function Values(list: seq<string>): set<string> {
    set i | 0 <= i < |list| && TrimSpace(list[i]) != "" :: TrimSpace(list[i])
  }

  ghost function Grants(m: Metadata): set<string> {
    if Values(m.grantTypes) == {} then {"authorization_code"} else Values(m.grantTypes)
  }

  /** Known grant types, refreshing only with something to refresh, response types only of the code flow, and no
      client credentials for a client that cannot keep a secret. */
  ghost predicate GrantsAllowed(m: Metadata) {
    && Grants(m) <= {"authorization_code", "refresh_token", "client_credentials",
                     "urn:ietf:params:oauth:grant-type:device_code"}
    && ("refresh_token" in Grants(m) ==>
          "authorization_code" in Grants(m) || "urn:ietf:params:oauth:grant-type:device_code" in Grants(m))
    && (Values(m.responseTypes) == {} ||
        (Values(m.responseTypes) == {"code"} && "authorization_code" in Grants(m)))
    && m.authMethod in {"", "none", "client_secret_basic", "client_secret_post"}
    && (m.authMethod == "none" ==> "client_credentials" !in Grants(m))
  }

  /** At most ten URIs of at most 2000 bytes each, without a fragment, that the policy takes. */
  ghost predicate UrisAllowed(policy: UriPolicy, uris: seq<string>) {
    && |Values(uris)| <= 10
    && forall uri :: uri in Values(uris) ==> Utf8Length(uri) <= 2000 && '#' !in uri && policy(uri)
  }

  ghost predicate RedirectsAllowed(policy: UriPolicy, m: Metadata) {
    && UrisAllowed(policy, m.redirectUris) && UrisAllowed(policy, m.postLogoutRedirectUris)
    && ("authorization_code" in Grants(m) ==> Values(m.redirectUris) != {})
  }

  /** A name of at most 255 bytes without control characters. */
  ghost predicate NameAllowed(m: Metadata) {
    var name := TrimSpace(m.clientName);
    Utf8Length(name) <= 255 && forall i :: 0 <= i < |name| ==> !IsControl(name[i])
  }

  /** At most 50 scope-tokens. */
  ghost predicate ScopesAllowed(m: Metadata) {
    |ParseScope(m.scope)| <= 50 && forall i :: 0 <= i < |ParseScope(m.scope)| ==> ScopeToken(ParseScope(m.scope)[i])
  }

  lemma DedupeIsValues(list: seq<string>)
    ensures ListSet(Dedupe(list)) == Values(list) && |Dedupe(list)| == |Values(list)|
    ensures NoRepeats(Dedupe(list))
  {
    forall v ensures v in Values(list) <==> v in Dedupe(list) {
      DedupeHasAll(list, v);
    }
    DedupeIsClean(list);
    CountNoRepeats(Dedupe(list));
  }

  lemma {:induction false} CountNoRepeats(xs: seq<string>)
    requires NoRepeats(xs)
    ensures |ListSet(xs)| == |xs|
  {
    if xs == [] {
      assert ListSet(xs) == {};
    } else {
      var n := |xs| - 1;
      CountNoRepeats(xs[..n]);
      assert ListSet(xs) == ListSet(xs[..n]) + {xs[n]};
      assert xs[n] !in ListSet(xs[..n]);
    }
  }

  lemma MembersAgree(list: seq<string>, v: string)
    ensures v in Dedupe(list) <==> v in Values(list)
    ensures Dedupe(list) == [] <==> Values(list) == {}
  {
    DedupeIsValues(list);
    assert v in ListSet(Dedupe(list)) <==> v in Dedupe(list);
  }

  lemma GrantMembers(m: Metadata)
    ensures ListSet(GrantsOf(m)) == Grants(m)
    ensures forall v :: v in GrantsOf(m) <==> v in Grants(m)
  {
    DedupeIsValues(m.grantTypes);
    MembersAgree(m.grantTypes, "");
    assert forall v :: v in ListSet(GrantsOf(m)) <==> v in GrantsOf(m);
  }

  lemma GrantTypesExactly(m: Metadata)
    ensures GrantsOk(GrantsOf(m)) <==>
      && Grants(m) <= {"authorization_code", "refresh_token", "client_credentials",
                       "urn:ietf:params:oauth:grant-type:device_code"}
      && ("refresh_token" in Grants(m) ==>
            "authorization_code" in Grants(m) || "urn:ietf:params:oauth:grant-type:device_code" in Grants(m))
  {
    GrantMembers(m);
    var grants := GrantsOf(m);
    assert (forall i :: 0 <= i < |grants| ==> MayRegister(grants[i])) <==> forall v :: v in Grants(m) ==> MayRegister(v);
  }

  lemma AuthMethodExactly(m: Metadata)
    ensures AuthMethodOk(AuthMethodOf(m), GrantsOf(m)) <==>
      && m.authMethod in {"", "none", "client_secret_basic", "client_secret_post"}
      && (m.authMethod == "none" ==> "client_credentials" !in Grants(m))
  {
    GrantMembers(m);
  }

  lemma ResponseTypesExactly(m: Metadata)
    ensures ResponseTypesOk(Dedupe(m.responseTypes), GrantsOf(m)) <==>
      Values(m.responseTypes) == {} || (Values(m.responseTypes) == {"code"} && "authorization_code" in Grants(m))
  {
    GrantMembers(m);
    SingleValue(m.responseTypes, CODE);
  }

  predicate GrantRulesOk(m: Metadata) {
    && GrantsOk(GrantsOf(m)) && ResponseTypesOk(Dedupe(m.responseTypes), GrantsOf(m))
    && AuthMethodOk(AuthMethodOf(m), GrantsOf(m))
  }

  lemma GrantsExactly(m: Metadata)
    ensures GrantRulesOk(m) <==> GrantsAllowed(m)
  {
    GrantTypesExactly(m);
    AuthMethodExactly(m);
    ResponseTypesExactly(m);
  }

  lemma SingleValue(list: seq<string>, v: string)
    ensures Dedupe(list) == [v] <==> Values(list) == {v}
    ensures Dedupe(list) == [] <==> Values(list) == {}
  {
    DedupeIsValues(list);
    MembersAgree(list, v);
    if Values(list) == {v} {
      assert |Dedupe(list)| == 1 && Dedupe(list)[0] in ListSet(Dedupe(list));
    }
  }

  lemma UrisExactly(policy: UriPolicy, uris: seq<string>)
    ensures UrisOk(policy, Dedupe(uris)) <==> UrisAllowed(policy, uris)
    ensures Dedupe(uris) == [] <==> Values(uris) == {}
  {
    DedupeIsValues(uris);
    MembersAgree(uris, "");
    var out := Dedupe(uris);
    forall uri | uri in Values(uris) ensures exists i :: 0 <= i < |out| && out[i] == uri {
      assert uri in ListSet(out);
    }
    forall i | 0 <= i < |out| ensures out[i] in Values(uris) {
      assert out[i] in ListSet(out);
    }
  }

  lemma DefaultIsPrintable(s: string)
    requires s == DEFAULT_NAME
    ensures |s| <= 255 && forall i :: 0 <= i < |s| ==> ' ' <= s[i] <= '~'
  {
  }

  lemma NameExactly(m: Metadata)
    ensures NameOk(NameOf(m)) <==> NameAllowed(m)
  {
    var name := TrimSpace(m.clientName);
    if name == "" {
      DefaultIsPrintable(NameOf(m));
      PrintableIsOk(NameOf(m));
    }
  }

  lemma {:induction false} AsciiLength(s: string)
    requires forall i :: 0 <= i < |s| ==> s[i] < '\U{80}'
    ensures Utf8Length(s) == |s|
  {
    if s != "" {
      AsciiLength(s[1..]);
    }
  }

  lemma PrintableIsOk(s: string)
    requires |s| <= 255 && forall i :: 0 <= i < |s| ==> ' ' <= s[i] <= '~'
    ensures NameOk(s)
  {
    AsciiLength(s);
  }

  /**
   * Validation accepts exactly the metadata that obeys every rule, and what it accepts it keeps: the values sent,
   * each once, with a default for the grant types, the authentication method and the name. It complains of a
   * redirect URI exactly when only rules from the redirect URIs on are broken, and one of those on URIs is.
   */
  lemma ValidExactly(policy: UriPolicy, m: Metadata)
    ensures Validate(policy, m).Ok? <==>
      GrantsAllowed(m) && RedirectsAllowed(policy, m) && NameAllowed(m) && ScopesAllowed(m)
    ensures Validate(policy, m) == Err(InvalidRedirectUri) <==> GrantsAllowed(m) && !RedirectsAllowed(policy, m)
    ensures Validate(policy, m).Ok? ==>
      var r := Validate(policy, m).value;
      && ListSet(r.grantTypes) == Grants(m) && ListSet(r.redirectUris) == Values(m.redirectUris)
      && ListSet(r.postLogoutRedirectUris) == Values(m.postLogoutRedirectUris)
      && r.authMethod == (if m.authMethod == "" then "client_secret_basic" else m.authMethod)
      && r.name == (if TrimSpace(m.clientName) == "" then "Dynamically registered client" else TrimSpace(m.clientName))
      && r.scopes == ParseScope(m.scope)
  {
    GrantsExactly(m);
    GrantMembers(m);
    UrisExactly(policy, m.redirectUris);
    UrisExactly(policy, m.postLogoutRedirectUris);
    DedupeIsValues(m.redirectUris);
    DedupeIsValues(m.postLogoutRedirectUris);
    NameExactly(m);
  }
}
