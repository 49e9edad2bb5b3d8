/**
 * The idempotency_keys table and the statements of internal/repo/gorm/idempotency.go on it.
 */
module IdempotencyTable {
  import opened Common
  import opened Redaction

  /** The unique index of the table. */
  datatype Scope = Scope(tenant: Id, principal: string, key: string)

  datatype Response = Response(status: nat, contentType: string, body: Body)

  /** A record without a response belongs to a request that is still running. */
  datatype Record = Record(
    id: Id, fingerprint: Hash, response: Option<Response>, created: Time, expires: Time)

  type Table = map<Scope, Record>

  /** The condition under which Begin may overwrite a record. */
  predicate Dead(r: Record, now: Time, staleBefore: Time) {
    r.expires < now || (r.response.None? && r.created < staleBefore)
  }

  predicate Free(rows: Table, scope: Scope, now: Time, staleBefore: Time) {
    scope in rows ==> Dead(rows[scope], now, staleBefore)
  }

  /** INSERT ... ON CONFLICT DO UPDATE ... WHERE the record is dead */
  function Begun(rows: Table, scope: Scope, r: Record, staleBefore: Time): Table {
    if Free(rows, scope, r.created, staleBefore) then rows[scope := r] else rows
  }

  /** UPDATE idempotency_keys SET response WHERE id = ? */
  function Completed(rows: Table, id: Id, response: Response): (after: Table)
    ensures after.Keys == rows.Keys
  {
    map scope | scope in rows ::
      if rows[scope].id == id then rows[scope].(response := Some(response)) else rows[scope]
  }

  /** DELETE FROM idempotency_keys WHERE id = ? */
  function Released(rows: Table, id: Id): Table {
    Keeping(rows, (r: Record) => r.id != id)
  }

  function Unexpired(rows: Table, now: Time): Table {
    Keeping(rows, (r: Record) => r.expires >= now)
  }

  // ----- Fingerprints -----

  const NUL: char := '\0'

  /** The text requestFingerprint hashes: the method, the URI and the body, separated by NUL. */
  function FingerprintInput(httpMethod: string, uri: string, body: string): string {
    httpMethod + [NUL] + uri + [NUL] + body
  }

  function Fingerprint(httpMethod: string, uri: string, body: string): Hash {
    Sha256(FingerprintInput(httpMethod, uri, body))
  }

  lemma {:induction false} FirstNulSplits(a: string, rest: string, b: string, other: string)
    requires NUL !in a && NUL !in b && a + [NUL] + rest == b + [NUL] + other
    ensures a == b && rest == other
  {
    var whole := a + [NUL] + rest;
    assert whole[|a|] == NUL && whole[|b|] == NUL;
    assert forall k :: 0 <= k < |a| ==> whole[k] == a[k];
    assert forall k :: 0 <= k < |b| ==> whole[k] == b[k];
    assert |a| == |b|;
    assert whole[..|a|] == a && whole[..|b|] == b;
    assert whole[|a| + 1..] == rest && whole[|b| + 1..] == other;
  }

  /** Requests with the same fingerprint have the same method, URI and body. */
  lemma FingerprintIsInjective(m: string, u: string, b: string, m': string, u': string, b': string)
    requires NUL !in m && NUL !in u && NUL !in m' && NUL !in u'
    requires Fingerprint(m, u, b) == Fingerprint(m', u', b')
    ensures m == m' && u == u' && b == b'
  {
    assert FingerprintInput(m, u, b) == m + [NUL] + (u + [NUL] + b);
    assert FingerprintInput(m', u', b') == m' + [NUL] + (u' + [NUL] + b');
    FirstNulSplits(m, u + [NUL] + b, m', u' + [NUL] + b');
    FirstNulSplits(u, b, u', b');
  }
}
