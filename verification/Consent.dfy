/** Consents: GrantConsent, HasConsent and unionScopes of internal/services/session_service_impl.go. */
module Consent {
  import opened Common
  import opened Scopes

  /** The unique key of a consent row. */
  datatype Key = Key(tenant: Id, user: Id, client: Id)

  /** The granted scope string of each row. */
  type Consents = map<Key, string>

  /** unionScopes: a, then what b adds, without repetitions. */
  method UnionScopes(a: seq<string>, b: seq<string>) returns (out: seq<string>)
    ensures ListSet(out) == ListSet(a) + ListSet(b)
    ensures forall i, j :: 0 <= i < j < |out| ==> out[i] != out[j]
    ensures AllWords(a) && AllWords(b) ==> AllWords(out)
  {
    var all := a + b;
    var seen: set<string> := {};
    out := [];
    for k := 0 to |all|
      invariant seen == ListSet(all[..k]) == ListSet(out)
      invariant forall i, j :: 0 <= i < j < |out| ==> out[i] != out[j]
    {
      assert all[..k + 1] == all[..k] + [all[k]];
      if all[k] !in seen {
        out := out + [all[k]];
        seen := seen + {all[k]};
      }
    }
    assert all[..|all|] == all;
    assert AllWords(a) && AllWords(b) ==> forall w :: w in ListSet(all) ==> IsWord(w);
    assert forall i :: 0 <= i < |out| ==> out[i] in ListSet(out);
  }

  class ConsentRepository {
    var rows: Consents

    constructor ()
      ensures rows == map[]
    {
      rows := map[];
    }

    method Get(key: Key) returns (scope: Option<string>)
      ensures scope == if key in rows then Some(rows[key]) else None
    {
      return if key in rows then Some(rows[key]) else None;
    }

    method Upsert(key: Key, scope: string)
      modifies this
      ensures rows == old(rows)[key := scope]
    {
      rows := rows[key := scope];
    }
  }

  class SessionService {
    const consents: ConsentRepository

    constructor (consents: ConsentRepository)
      ensures this.consents == consents
    {
      this.consents := consents;
    }

    /** Adds the scopes to what the user already granted the client. */
    method GrantConsent(key: Key, scope: string, fails: bool) returns (ok: bool)
      modifies consents
      ensures ok == !fails
      ensures fails ==> consents.rows == old(consents.rows)
      ensures ok ==> Grants(old(consents.rows), consents.rows, key, scope)
    {
      var granted := ParseScope(scope);
      var existing := consents.Get(key);
      if existing.Some? {
        granted := UnionScopes(ParseScope(existing.value), granted);
      }
      if fails {
        return false;
      }
      consents.Upsert(key, JoinScope(granted));
      ParseJoin(granted);
      return true;
    }

    method HasConsent(key: Key, scope: string) returns (yes: bool)
      ensures yes <==> Covers(consents.rows, key, scope)
    {
      var existing := consents.Get(key);
      if existing.None? {
        return false;
      }
      yes := ScopeIsSubset(scope, existing.value);
    }
  }

  /** What HasConsent answers. */
  predicate Covers(rows: Consents, key: Key, scope: string) {
    key in rows && ScopeSet(scope) <= ScopeSet(rows[key])
  }

  /** What GrantConsent does to the rows: the row of the key grows by the scopes, no other row changes. */
  ghost predicate Grants(rows: Consents, rows': Consents, key: Key, scope: string) {
    && key in rows' && rows' == rows[key := rows'[key]]
    && ScopeSet(rows'[key]) == ScopeSet(scope) + (if key in rows then ScopeSet(rows[key]) else {})
  }

  // ----- Any number of grants -----

  datatype Grant = Grant(key: Key, scope: string)

  /** The rows before each grant and after the last. */
  ghost predicate IsHistory(tables: seq<Consents>, grants: seq<Grant>) {
    && |tables| == |grants| + 1 && tables[0] == map[]
    && forall k :: 0 <= k < |grants| ==> Grants(tables[k], tables[k + 1], grants[k].key, grants[k].scope)
  }

  predicate EverGranted(grants: seq<Grant>, n: nat, key: Key)
    requires n <= |grants|
  {
    exists k :: 0 <= k < n && grants[k].key == key
  }

  function AllGranted(grants: seq<Grant>, n: nat, key: Key): set<string>
    requires n <= |grants|
  {
    if n == 0 then {}
    else AllGranted(grants, n - 1, key) + (if grants[n - 1].key == key then ScopeSet(grants[n - 1].scope) else {})
  }

  /** The row of a key is the union of the first n grants for it, and there is one if there was a grant. */
  ghost predicate RowIsUnionOf(rows: Consents, grants: seq<Grant>, n: nat, key: Key)
    requires n <= |grants|
  {
    && (key in rows <==> EverGranted(grants, n, key))
    && AllGranted(grants, n, key) == if key in rows then ScopeSet(rows[key]) else {}
  }

  lemma GrantKeepsUnion(rows: Consents, rows': Consents, grants: seq<Grant>, n: nat, key: Key)
    requires n < |grants| && RowIsUnionOf(rows, grants, n, key)
    requires Grants(rows, rows', grants[n].key, grants[n].scope)
    ensures RowIsUnionOf(rows', grants, n + 1, key)
  {
  }

  lemma {:induction false} RowIsUnion(tables: seq<Consents>, grants: seq<Grant>, n: nat, key: Key)
    requires IsHistory(tables, grants) && n <= |grants|
    ensures RowIsUnionOf(tables[n], grants, n, key)
  {
    if n > 0 {
      RowIsUnion(tables, grants, n - 1, key);
      GrantKeepsUnion(tables[n - 1], tables[n - 1 + 1], grants, n - 1, key);
    }
  }

  /** HasConsent holds exactly when something was granted and the scopes lie in the union of all that was. */
  lemma ConsentIsUnion(tables: seq<Consents>, grants: seq<Grant>, n: nat, key: Key, scope: string)
    requires IsHistory(tables, grants) && n <= |grants|
    ensures Covers(tables[n], key, scope) <==>
      EverGranted(grants, n, key) && ScopeSet(scope) <= AllGranted(grants, n, key)
  {
    RowIsUnion(tables, grants, n, key);
  }
}
