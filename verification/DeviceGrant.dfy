/**
 * The device authorization grant (RFC 8628) at the granularity of whole calls:
 * internal/services/device_token_exchange.go and internal/repo/gorm/device_code.go. A call reads a row and
 * saves it whole, so concurrent calls are modelled as running one after the other.
 */
module DeviceGrant {
  import opened Common
  import opened Scopes
  import opened TypedCodes

  datatype Status = Pending | Approved | Denied

  /** A device_codes row, keyed by the hash of the device code. */
  datatype DeviceRow = DeviceRow(
    tenant: Id, userCode: string, client: Id, scope: string, status: Status, interval: int,
    user: Option<Id>, authTime: Option<Time>, amr: seq<string>, lastPolled: Option<Time>, expires: Time)

  type Table = map<Hash, DeviceRow>

  datatype Error =
    | InvalidGrant
    | ExpiredCode
    | SlowDown
    | AuthorizationPending
    | AccessDenied
    | NotFound
    | StoreFailed

  /** What issueTokens is asked to issue for a device code. */
  datatype Grant = Grant(client: Id, user: Id, scope: string, authTime: Option<Time>, amr: seq<string>)

  // ----- User codes -----

  const USER_CODE_LENGTH := 8

  /** Consonants without U, V and the like: the alphabet of user codes. */
  predicate InUserAlphabet(c: char) {
    'B' <= c <= 'Z' && c != 'E' && c != 'I' && c != 'O' && c != 'U' && c != 'Y'
  }

  predicate UserCode(code: string) {
    |code| == USER_CODE_LENGTH && forall i :: 0 <= i < |code| ==> InUserAlphabet(code[i])
  }

  /** strings.ToUpper, on letters a to z. */
  function UpperAll(s: string): string {
    if s == "" then "" else [Upper(s[0])] + UpperAll(s[1..])
  }

  /** strings.ReplaceAll(s, c, "") */
  function Without(s: string, c: char): string {
    if s == "" then "" else (if s[0] == c then "" else [s[0]]) + Without(s[1..], c)
  }

  function NormalizeUserCode(code: string): string {
    Without(Without(UpperAll(TrimSpace(code)), '-'), ' ')
  }

  function FormatUserCode(code: string): string {
    if |code| == USER_CODE_LENGTH then Grouped(code, 4) else code
  }

  lemma {:induction false} WithoutIsSqueeze(s: string)
    ensures Without(Without(UpperAll(s), '-'), ' ') == Squeeze(s)
  {
    if s != "" {
      WithoutIsSqueeze(s[1..]);
      var u, rest := UpperAll(s), Without(UpperAll(s[1..]), '-');
      assert u == [Upper(s[0])] + UpperAll(s[1..]) && u[1..] == UpperAll(s[1..]);
      if s[0] == '-' {
        assert Without(u, '-') == rest;
      } else {
        var w := Without(u, '-');
        assert w == [u[0]] + rest && w[1..] == rest;
      }
    }
  }

  lemma UserCodeIsPlain(code: string)
    requires UserCode(code)
    ensures Plain(code)
  {
  }

  /** A generated code, as shown and however it is typed back, is found again (section 6.1 of RFC 8628). */
  lemma TypedUserCode(code: string, entered: string)
    requires UserCode(code) && Typed(TrimSpace(entered), code)
    ensures NormalizeUserCode(entered) == code
  {
    UserCodeIsPlain(code);
    WithoutIsSqueeze(TrimSpace(entered));
    SqueezeTyped(TrimSpace(entered), code);
  }

  lemma FormatThenNormalize(code: string)
    requires UserCode(code)
    ensures NormalizeUserCode(FormatUserCode(code)) == code
  {
    UserCodeIsPlain(code);
    WithoutIsSqueeze(TrimSpace(Grouped(code, 4)));
    SqueezeGrouped(code, 4);
  }

  // ----- The calls -----

  datatype Decision = Approve(user: Id, amr: seq<string>) | Deny

  function Decided(row: DeviceRow, d: Decision, now: Time): DeviceRow {
    match d
    case Approve(user, amr) => row.(status := Approved, user := Some(user), authTime := Some(now), amr := amr)
    case Deny => row.(status := Denied)
  }

  predicate HasUserCode(rows: Table, tenant: Id, userCode: string, h: Hash) {
    h in rows && rows[h].tenant == tenant && rows[h].userCode == userCode
  }

  /** The unique index on user codes. */
  ghost predicate UserCodesUnique(rows: Table) {
    forall h, k :: h in rows && k in rows && rows[h].userCode == rows[k].userCode ==> h == k
  }

  /** resolveDeviceCode, for the row that carries the user code. */
  function Resolve(rows: Table, h: Hash, d: Decision, now: Time): (Table, Option<Error>)
    requires h in rows
  {
    var row := rows[h];
    if now >= row.expires then (rows, Some(ExpiredCode))
    else if row.status != Pending then (rows, Some(NotFound))
    else (rows[h := Decided(row, d, now)], None)
  }

  /** What an exchange is given from outside: the clock, and whether the update, the delete and the issue of
      tokens err. */
  datatype Env = Env(now: Time, updateFails: bool, deleteFails: bool, issueFails: bool)

  predicate TooFast(row: DeviceRow, now: Time) {
    row.lastPolled.Some? && now - row.lastPolled.value < row.interval
  }

  function Polled(rows: Table, h: Hash, e: Env): Table
    requires h in rows
  {
    if e.updateFails then rows else rows[h := rows[h].(lastPolled := Some(e.now))]
  }

  function Dropped(rows: Table, h: Hash, e: Env): Table {
    if e.deleteFails then rows else rows - {h}
  }

  /** ExchangeDeviceCode. */
  function Exchange(rows: Table, tenant: Id, client: Id, h: Hash, e: Env): (Table, Result<Grant, Error>) {
    if h !in rows || rows[h].tenant != tenant || rows[h].client != client then (rows, Err(InvalidGrant))
    else
      var row := rows[h];
      if e.now >= row.expires then (Dropped(rows, h, e), Err(ExpiredCode))
      else
        var polled := Polled(rows, h, e);
        if TooFast(row, e.now) then (polled, Err(SlowDown))
        else
          match row.status
          case Pending => (polled, Err(AuthorizationPending))
          case Denied => (Dropped(polled, h, e), Err(AccessDenied))
          case Approved =>
            if row.user.None? then (polled, Err(InvalidGrant))
            else if e.deleteFails then (polled, Err(InvalidGrant))
            else if e.issueFails then (polled - {h}, Err(StoreFailed))
            else (polled - {h}, Ok(Grant(client, row.user.value, row.scope, row.authTime, row.amr)))
  }

  /** CreateDeviceAuthorization: the row it stores. */
  function NewRow(tenant: Id, client: Id, scope: string, userCode: string,
                  configuredInterval: int, configuredDuration: int, now: Time): DeviceRow {
    DeviceRow(tenant, userCode, client, scope, Pending, if configuredInterval <= 0 then 5 else configuredInterval,
              None, None, [], None, now + (if configuredDuration <= 0 then 600 else configuredDuration))
  }

  // ----- The calls in the form of the source -----

  class DeviceCodeRepository {
    var rows: Table

    constructor ()
      ensures rows == map[]
    {
      rows := map[];
    }

    /** Refused if the device code or the user code is taken. */
    method Create(h: Hash, row: DeviceRow) returns (ok: bool)
      modifies this
      ensures ok <==> h !in old(rows) && forall k :: k in old(rows) ==> old(rows)[k].userCode != row.userCode
      ensures rows == if ok then old(rows)[h := row] else old(rows)
      ensures old(UserCodesUnique(rows)) ==> UserCodesUnique(rows)
    {
      if h in rows || exists k :: k in rows && rows[k].userCode == row.userCode {
        return false;
      }
      rows := rows[h := row];
      return true;
    }

    method GetByUserCode(tenant: Id, userCode: string) returns (found: Option<Hash>)
      ensures found.Some? ==> HasUserCode(rows, tenant, userCode, found.value)
      ensures found.None? ==> forall h :: !HasUserCode(rows, tenant, userCode, h)
    {
      var left := rows.Keys;
      while left != {}
        invariant left <= rows.Keys
        invariant forall h :: h in rows && h !in left ==> !HasUserCode(rows, tenant, userCode, h)
        decreases |left|
      {
        var h :| h in left;
        if rows[h].tenant == tenant && rows[h].userCode == userCode {
          return Some(h);
        }
        left := left - {h};
      }
      return None;
    }

    method Update(h: Hash, row: DeviceRow)
      modifies this
      ensures rows == old(rows)[h := row]
    {
      rows := rows[h := row];
    }

    method Delete(h: Hash)
      modifies this
      ensures rows == old(rows) - {h}
    {
      rows := rows - {h};
    }

    method DeleteExpired(now: Time)
      modifies this
      ensures rows == Keeping(old(rows), (r: DeviceRow) => r.expires >= now)
    {
      rows := map h | h in rows && rows[h].expires >= now :: rows[h];
    }
  }

  class DeviceService {
    const codes: DeviceCodeRepository

    constructor (codes: DeviceCodeRepository)
      ensures this.codes == codes
    {
      this.codes := codes;
    }

    /** CreateDeviceAuthorization, for a client that the caller authenticated; the codes are freshly drawn. */
    method CreateDeviceAuthorization(tenant: Id, client: Id, scope: string, deviceCode: string, userCode: string,
                                     configuredInterval: int, configuredDuration: int, now: Time)
      returns (shown: Option<string>)
      modifies codes
      ensures shown.Some? <==> Sha256(deviceCode) !in old(codes.rows) &&
                               forall k :: k in old(codes.rows) ==> old(codes.rows)[k].userCode != userCode
      ensures shown.None? ==> codes.rows == old(codes.rows)
      ensures shown.Some? ==>
        && codes.rows == old(codes.rows)[Sha256(deviceCode) :=
             NewRow(tenant, client, scope, userCode, configuredInterval, configuredDuration, now)]
        && codes.rows[Sha256(deviceCode)].interval > 0 && codes.rows[Sha256(deviceCode)].expires > now
      ensures shown.Some? && UserCode(userCode) ==> NormalizeUserCode(shown.value) == userCode
    {
      var interval, duration := configuredInterval, configuredDuration;
      if interval <= 0 {
        interval := 5;
      }
      if duration <= 0 {
        duration := 600;
      }
      var row := DeviceRow(tenant, userCode, client, scope, Pending, interval, None, None, [], None, now + duration);
      var ok := codes.Create(Sha256(deviceCode), row);
      if !ok {
        return None;
      }
      if UserCode(userCode) {
        FormatThenNormalize(userCode);
      }
      return Some(FormatUserCode(userCode));
    }

    /** resolveDeviceCode: approve or deny the code the user entered. */
    method ResolveDeviceCode(tenant: Id, entered: string, d: Decision, now: Time) returns (err: Option<Error>)
      modifies codes
      ensures (forall h :: !HasUserCode(old(codes.rows), tenant, NormalizeUserCode(entered), h)) ==>
        err == Some(NotFound) && codes.rows == old(codes.rows)
      ensures (exists h :: HasUserCode(old(codes.rows), tenant, NormalizeUserCode(entered), h)) ==>
        exists h :: HasUserCode(old(codes.rows), tenant, NormalizeUserCode(entered), h) &&
          Resolve(old(codes.rows), h, d, now) == (codes.rows, err)
    {
      var found := codes.GetByUserCode(tenant, NormalizeUserCode(entered));
      if found.None? {
        return Some(NotFound);
      }
      var h := found.value;
      ghost var was := codes.rows;
      assert HasUserCode(was, tenant, NormalizeUserCode(entered), h);
      var row := codes.rows[h];
      if now >= row.expires {
        return Some(ExpiredCode);
      }
      if row.status != Pending {
        return Some(NotFound);
      }
      match d {
        case Approve(user, amr) =>
          row := row.(status := Approved, user := Some(user), authTime := Some(now), amr := amr);
        case Deny =>
          row := row.(status := Denied);
      }
      codes.Update(h, row);
      assert Resolve(was, h, d, now) == (codes.rows, None);
      return None;
    }

    method ExchangeDeviceCode(tenant: Id, client: Id, deviceCode: string, e: Env) returns (r: Result<Grant, Error>)
      modifies codes
      ensures Exchange(old(codes.rows), tenant, client, Sha256(deviceCode), e) == (codes.rows, r)
    {
      var h := Sha256(deviceCode);
      if h !in codes.rows || codes.rows[h].tenant != tenant {
        return Err(InvalidGrant);
      }
      var row := codes.rows[h];
      if row.client != client {
        return Err(InvalidGrant);
      }
      if e.now >= row.expires {
        if !e.deleteFails {
          codes.Delete(h);
        }
        return Err(ExpiredCode);
      }
      var tooFast := row.lastPolled.Some? && e.now - row.lastPolled.value < row.interval;
      row := row.(lastPolled := Some(e.now));
      if !e.updateFails {
        codes.Update(h, row);
      }
      if tooFast {
        return Err(SlowDown);
      }
      match row.status
      case Pending =>
        return Err(AuthorizationPending);
      case Denied =>
        if !e.deleteFails {
          codes.Delete(h);
        }
        return Err(AccessDenied);
      case Approved =>
        if row.user.None? || e.deleteFails {
          return Err(InvalidGrant);
        }
        codes.Delete(h);
        if e.issueFails {
          return Err(StoreFailed);
        }
        return Ok(Grant(client, row.user.value, row.scope, row.authTime, row.amr));
    }
  }
}
