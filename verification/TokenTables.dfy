/**
 * The token tables of one database and the atomic statements the repositories run on them
 * (internal/repo/gorm/refresh_token.go, access_token.go and auth_code.go).
 */
module TokenTables {
  import opened Common

  /** The tenant_id and family_id columns of a token. */
  datatype Family = Family(tenant: Id, id: Id)

  datatype RefreshRow = RefreshRow(
    family: Family, client: Id, user: Id, scope: string,
    authTime: Option<Time>, amr: seq<string>, revoked: bool, expires: Time)

  datatype AccessRow = AccessRow(family: Family, client: Id, user: Id, scope: string, expires: Time)

  /** A PKCE code challenge: none, the S256 digest of a verifier, or text that is no digest. */
  datatype Challenge = Absent | Digest(hash: Hash) | NotADigest

  /** An authorization code. Its id is the id of the token family it starts. */
  datatype CodeRow = CodeRow(
    code: string, family: Family, client: Id, user: Id, redirectUri: string, scope: string,
    challenge: Challenge, challengeMethod: string,
    authTime: Option<Time>, amr: seq<string>, used: bool, expires: Time)

  datatype Db = Db(
    refresh: map<Hash, RefreshRow>, access: map<Hash, AccessRow>, codes: map<string, CodeRow>)

  function FindRefresh(rows: map<Hash, RefreshRow>, tenant: Id, h: Hash): Option<RefreshRow> {
    if h in rows && rows[h].family.tenant == tenant then Some(rows[h]) else None
  }

  function FindAccess(rows: map<Hash, AccessRow>, tenant: Id, h: Hash): Option<AccessRow> {
    if h in rows && rows[h].family.tenant == tenant then Some(rows[h]) else None
  }

  function FindCode(rows: map<string, CodeRow>, tenant: Id, code: string): Option<CodeRow> {
    if code in rows && rows[code].family.tenant == tenant then Some(rows[code]) else None
  }

  /** What one statement changes. */
  datatype Effect =
    | Nothing
    | ClaimRefresh(tenant: Id, h: Hash)
    | UseCode(tenant: Id, code: string)
    | AddRefresh(h: Hash, refreshRow: RefreshRow)
    | AddAccess(h: Hash, accessRow: AccessRow)
    | DropRefresh(tenant: Id, h: Hash)
    | DropAccess(tenant: Id, h: Hash)
    | DropCode(tenant: Id, code: string)
    | WipeRefresh(family: Family)
    | WipeAccess(family: Family)

  /** UPDATE refresh_tokens SET revoked_at WHERE ... revoked_at IS NULL */
  function Claimed(rows: map<Hash, RefreshRow>, tenant: Id, h: Hash): map<Hash, RefreshRow> {
    if Claimable(rows, tenant, h) then rows[h := rows[h].(revoked := true)] else rows
  }

  predicate Claimable(rows: map<Hash, RefreshRow>, tenant: Id, h: Hash) {
    var row := FindRefresh(rows, tenant, h);
    row.Some? && !row.value.revoked
  }

  /** UPDATE authorization_codes SET used_at WHERE ... used_at IS NULL */
  function CodeUsed(rows: map<string, CodeRow>, tenant: Id, code: string): map<string, CodeRow> {
    if Usable(rows, tenant, code) then rows[code := rows[code].(used := true)] else rows
  }

  predicate Usable(rows: map<string, CodeRow>, tenant: Id, code: string) {
    var row := FindCode(rows, tenant, code);
    row.Some? && !row.value.used
  }

  function WithoutRefresh(rows: map<Hash, RefreshRow>, tenant: Id, h: Hash): map<Hash, RefreshRow> {
    if FindRefresh(rows, tenant, h).Some? then rows - {h} else rows
  }

  function WithoutAccess(rows: map<Hash, AccessRow>, tenant: Id, h: Hash): map<Hash, AccessRow> {
    if FindAccess(rows, tenant, h).Some? then rows - {h} else rows
  }

  function WithoutCode(rows: map<string, CodeRow>, tenant: Id, code: string): map<string, CodeRow> {
    if FindCode(rows, tenant, code).Some? then rows - {code} else rows
  }

  /** DELETE FROM refresh_tokens WHERE family_id = ? */
  function RefreshOutside(rows: map<Hash, RefreshRow>, family: Family): (kept: map<Hash, RefreshRow>)
    ensures forall h :: h in kept <==> h in rows && rows[h].family != family
    ensures forall h :: h in kept ==> kept[h] == rows[h]
  {
    map h | h in rows && rows[h].family != family :: rows[h]
  }

  /** DELETE FROM access_tokens WHERE family_id = ? */
  function AccessOutside(rows: map<Hash, AccessRow>, family: Family): (kept: map<Hash, AccessRow>)
    ensures forall h :: h in kept <==> h in rows && rows[h].family != family
    ensures forall h :: h in kept ==> kept[h] == rows[h]
  {
    map h | h in rows && rows[h].family != family :: rows[h]
  }

  function Perform(db: Db, effect: Effect): Db {
    match effect
    case Nothing => db
    case ClaimRefresh(tenant, h) => db.(refresh := Claimed(db.refresh, tenant, h))
    case UseCode(tenant, code) => db.(codes := CodeUsed(db.codes, tenant, code))
    case AddRefresh(h, row) => db.(refresh := db.refresh[h := row])
    case AddAccess(h, row) => db.(access := db.access[h := row])
    case DropRefresh(tenant, h) => db.(refresh := WithoutRefresh(db.refresh, tenant, h))
    case DropAccess(tenant, h) => db.(access := WithoutAccess(db.access, tenant, h))
    case DropCode(tenant, code) => db.(codes := WithoutCode(db.codes, tenant, code))
    case WipeRefresh(family) => db.(refresh := RefreshOutside(db.refresh, family))
    case WipeAccess(family) => db.(access := AccessOutside(db.access, family))
  }
}
