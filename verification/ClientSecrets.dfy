/**
 * The cache of verified client secrets and the authentication it speeds up:
 * internal/services/client_secret_cache.go and ValidateClient of internal/services/client_service_impl.go.
 */
module ClientSecrets {
  import opened Common

  /** The row ValidateClient reads; storedHash is empty if no secret is stored. */
  datatype ClientRow = ClientRow(id: Id, isPublic: bool, storedHash: string)

  /** bcrypt.CompareHashAndPassword: whether the hash is one of the secret. */
  type Bcrypt = (string, string) -> bool

  /** HMAC-SHA-256, injective in the secret. */
  datatype Mac = Hmac(key: string, secret: string)

  datatype Key = Key(client: Id, storedHash: string)

  datatype Entry = Entry(mac: Mac, expires: Time)

  type Entries = map<Key, Entry>

  datatype Cache = Cache(key: string, ttl: int, entries: Entries)

  const MAX_ENTRIES := 10_000

  // ----- Authentication with and without the cache -----

  /** Authentication that always runs bcrypt. */
  predicate Authentic(bcrypt: Bcrypt, client: Option<ClientRow>, secret: string) {
    && client.Some?
    && if client.value.isPublic then secret == ""
       else secret != "" && client.value.storedHash != "" && bcrypt(client.value.storedHash, secret)
  }

  predicate Verified(c: Cache, client: Id, storedHash: string, secret: string, now: Time) {
    var k := Key(client, storedHash);
    k in c.entries && now < c.entries[k].expires && c.entries[k].mac == Hmac(c.key, secret)
  }

  function Remembered(c: Cache, client: Id, storedHash: string, secret: string, now: Time): Cache {
    var kept := if |c.entries| >= MAX_ENTRIES then map[] else c.entries;
    c.(entries := kept[Key(client, storedHash) := Entry(Hmac(c.key, secret), now + c.ttl)])
  }

  /** ValidateClient: the cache after it, and whether the client is authentic. */
  function Validate(bcrypt: Bcrypt, c: Cache, client: Option<ClientRow>, secret: string, checkedAt: Time,
                    storedAt: Time): (Cache, bool) {
    if client.None? then (c, false)
    else if client.value.isPublic then (c, secret == "")
    else if secret == "" || client.value.storedHash == "" then (c, false)
    else if Verified(c, client.value.id, client.value.storedHash, secret, checkedAt) then (c, true)
    else if !bcrypt(client.value.storedHash, secret) then (c, false)
    else (Remembered(c, client.value.id, client.value.storedHash, secret, storedAt), true)
  }

  /** Every entry is the MAC of a secret that matches the stored hash in its key. */
  ghost predicate Sound(bcrypt: Bcrypt, c: Cache) {
    && |c.entries| <= MAX_ENTRIES
    && forall k :: k in c.entries ==> c.entries[k].mac.key == c.key && bcrypt(k.storedHash, c.entries[k].mac.secret)
  }

  lemma ValidateKeepsSound(bcrypt: Bcrypt, c: Cache, client: Option<ClientRow>, secret: string, checkedAt: Time,
                           storedAt: Time)
    requires Sound(bcrypt, c)
    ensures Sound(bcrypt, Validate(bcrypt, c, client, secret, checkedAt, storedAt).0)
    ensures Validate(bcrypt, c, client, secret, checkedAt, storedAt).1 == Authentic(bcrypt, client, secret)
  {
  }

  /** One authentication: the row stored when it ran, which rotations and deletions change, the secret
      presented and the clock readings. */
  datatype Attempt = Attempt(client: Option<ClientRow>, secret: string, checkedAt: Time, storedAt: Time)

  /** The caches before each attempt and after the last. */
  ghost predicate IsHistory(bcrypt: Bcrypt, caches: seq<Cache>, attempts: seq<Attempt>) {
    && |caches| == |attempts| + 1 && caches[0].entries == map[]
    && forall k :: 0 <= k < |attempts| ==>
         var a := attempts[k];
         caches[k + 1] == Validate(bcrypt, caches[k], a.client, a.secret, a.checkedAt, a.storedAt).0
  }

  lemma {:induction false} HistoryIsSound(bcrypt: Bcrypt, caches: seq<Cache>, attempts: seq<Attempt>, n: nat)
    requires IsHistory(bcrypt, caches, attempts) && n <= |attempts|
    ensures Sound(bcrypt, caches[n])
  {
    if n > 0 {
      HistoryIsSound(bcrypt, caches, attempts, n - 1);
      var a := attempts[n - 1];
      assert caches[n - 1 + 1] == Validate(bcrypt, caches[n - 1], a.client, a.secret, a.checkedAt, a.storedAt).0;
      ValidateKeepsSound(bcrypt, caches[n - 1], a.client, a.secret, a.checkedAt, a.storedAt);
    }
  }

  /** Over every history of authentications, secret rotations and clock readings the cache changes no answer,
      and it never holds more than 10000 entries. */
  lemma CacheRefinesBcrypt(bcrypt: Bcrypt, caches: seq<Cache>, attempts: seq<Attempt>, n: nat)
    requires IsHistory(bcrypt, caches, attempts) && n < |attempts|
    ensures var a := attempts[n];
      Validate(bcrypt, caches[n], a.client, a.secret, a.checkedAt, a.storedAt).1 == Authentic(bcrypt, a.client, a.secret)
    ensures |caches[n].entries| <= MAX_ENTRIES
  {
    HistoryIsSound(bcrypt, caches, attempts, n);
    var a := attempts[n];
    ValidateKeepsSound(bcrypt, caches[n], a.client, a.secret, a.checkedAt, a.storedAt);
  }

  /**
   * What the cache is for: once bcrypt has verified a secret it is accepted for the lifetime of its entry without
   * bcrypt, whatever bcrypt would say. The entry speaks only for the client, the stored hash and the secret it
   * was made for, and not from its expiry on.
   */
  lemma VerifiedSecretIsCached(bcrypt: Bcrypt, other: Bcrypt, c: Cache, client: ClientRow, secret: string,
                               checkedAt: Time, storedAt: Time, later: Attempt)
    requires !client.isPublic && Authentic(bcrypt, Some(client), secret) && later.client.Some?
    requires !Verified(c, client.id, client.storedHash, secret, checkedAt)
    requires later.client.value.id == client.id && later.client.value.storedHash == client.storedHash
    ensures var c' := Validate(bcrypt, c, Some(client), secret, checkedAt, storedAt).0;
      var hit := later.secret == secret && later.checkedAt < storedAt + c.ttl;
      && (hit && !later.client.value.isPublic ==>
            Validate(other, c', later.client, later.secret, later.checkedAt, later.storedAt) == (c', true))
      && (!hit ==> !Verified(c', client.id, client.storedHash, later.secret, later.checkedAt))
  {
  }

  // ----- The objects of the source -----

  class ClientSecretCache {
    const key: string
    const ttl: int
    var entries: Entries

    constructor (key: string, ttl: int)
      ensures Contents() == Cache(key, ttl, map[])
    {
      this.key, this.ttl, entries := key, ttl, map[];
    }

    function Contents(): Cache
      reads this
    {
      Cache(key, ttl, entries)
    }

    method IsVerified(client: Id, storedHash: string, secret: string, now: Time) returns (ok: bool)
      ensures ok == Verified(Contents(), client, storedHash, secret, now)
    {
      var k := Key(client, storedHash);
      if k !in entries || now >= entries[k].expires {
        return false;
      }
      return entries[k].mac == Hmac(key, secret);
    }

    method Remember(client: Id, storedHash: string, secret: string, now: Time)
      modifies this`entries
      ensures Contents() == Remembered(old(Contents()), client, storedHash, secret, now)
    {
      if |entries| >= MAX_ENTRIES {
        entries := map[];
      }
      entries := entries[Key(client, storedHash) := Entry(Hmac(key, secret), now + ttl)];
    }
  }

  class ClientService {
    /** Null if no key could be drawn; the service then runs without a cache. */
    const secrets: ClientSecretCache?

    constructor (secrets: ClientSecretCache?)
      ensures this.secrets == secrets
    {
      this.secrets := secrets;
    }

    /** The answer does not depend on what other calls put into the cache between the statements of this one. */
    method ValidateClient(bcrypt: Bcrypt, client: Option<ClientRow>, secret: string, checkedAt: Time, storedAt: Time,
                          others: Entries) returns (ok: bool)
      requires secrets != null ==> Sound(bcrypt, secrets.Contents())
      requires secrets != null ==> Sound(bcrypt, Cache(secrets.key, secrets.ttl, others))
      modifies if secrets == null then {} else {secrets}
      ensures ok == Authentic(bcrypt, client, secret)
      ensures secrets != null ==> Sound(bcrypt, secrets.Contents())
      ensures secrets != null ==>
        if ok && !client.value.isPublic
           && !Verified(old(secrets.Contents()), client.value.id, client.value.storedHash, secret, checkedAt)
        then secrets.Contents() == Remembered(Cache(secrets.key, secrets.ttl, others), client.value.id,
                                              client.value.storedHash, secret, storedAt)
        else secrets.entries == old(secrets.entries)
    {
      if client.None? {
        return false;
      }
      var c := client.value;
      if c.isPublic {
        return secret == "";
      }
      if secret == "" || c.storedHash == "" {
        return false;
      }
      if secrets != null {
        var verified := secrets.IsVerified(c.id, c.storedHash, secret, checkedAt);
        if verified {
          return true;
        }
      }
      if !bcrypt(c.storedHash, secret) {
        return false;
      }
      if secrets != null {
        secrets.entries := others;
        secrets.Remember(c.id, c.storedHash, secret, storedAt);
      }
      return true;
    }
  }
}
