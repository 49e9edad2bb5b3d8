/** The idempotency repository and middleware in the form of the source. */
module IdempotencyService {
  import opened Common
  import opened Redaction
  import opened IdempotencyTable
  import opened IdempotencyMachine
  import opened IdempotencyRuns
  import opened IdempotencyAlone

  class IdempotencyRepository {
    var rows: Table

    constructor ()
      ensures rows == map[]
    {
      rows := map[];
    }

    /** The upsert of Begin: inserts, or takes over a dead record; tells whether it did. */
    method Upsert(scope: Scope, r: Record, staleBefore: Time) returns (stored: bool)
      modifies this
      ensures stored <==> Free(old(rows), scope, r.created, staleBefore)
      ensures rows == Begun(old(rows), scope, r, staleBefore)
      ensures stored ==> scope in rows && rows[scope] == r
    {
      if scope in rows {
        var existing := rows[scope];
        var expired := existing.expires < r.created;
        var abandoned := existing.response.None? && existing.created < staleBefore;
        if !expired && !abandoned {
          return false;
        }
      }
      rows := rows[scope := r];
      return true;
    }

    method Find(scope: Scope) returns (r: Option<Record>)
      ensures r == if scope in rows then Some(rows[scope]) else None
    {
      return if scope in rows then Some(rows[scope]) else None;
    }

    /** Stores a response in the record with the given id; a superseded id matches no record. */
    method Complete(id: Id, response: Response)
      modifies this
      ensures rows == Completed(old(rows), id, response)
      ensures !HasRow(old(rows), id) ==> rows == old(rows)
    {
      rows := map scope | scope in rows ::
        if rows[scope].id == id then rows[scope].(response := Some(response)) else rows[scope];
    }

    method Delete(id: Id)
      modifies this
      ensures rows == Released(old(rows), id)
      ensures !HasRow(old(rows), id) ==> rows == old(rows)
    {
      rows := map scope | scope in rows && rows[scope].id != id :: rows[scope];
    }

    method DeleteExpired(now: Time)
      modifies this
      ensures rows == Unexpired(old(rows), now)
    {
      rows := map scope | scope in rows && rows[scope].expires >= now :: rows[scope];
    }
  }

  // ----- Before the record -----

  const MAX_KEY_LENGTH := 255

  predicate ValidKey(key: string) {
    0 < |key| <= MAX_KEY_LENGTH && forall i :: 0 <= i < |key| ==> '\U{21}' <= key[i] <= '\U{7e}'
  }

  /** validIdempotencyKey. */
  method ValidIdempotencyKey(key: string) returns (ok: bool)
    ensures ok <==> ValidKey(key)
  {
    if |key| == 0 || |key| > MAX_KEY_LENGTH {
      return false;
    }
    for i := 0 to |key|
      invariant forall j :: 0 <= j < i ==> '\U{21}' <= key[j] <= '\U{7e}'
    {
      if key[i] < '\U{21}' || key[i] > '\U{7e}' {
        return false;
      }
    }
    return true;
  }

  /** Who sent a request, as authentication left it: a user, else a client, else nobody. */
  datatype Sender = User(id: string) | Client(id: string) | Anonymous

  const NIL_UUID := "00000000-0000-0000-0000-000000000000"

  function SenderOf(user: Option<string>, client: Option<string>): Sender {
    if user.Some? && user.value != NIL_UUID then User(user.value)
    else if client.Some? then Client(client.value)
    else Anonymous
  }

  /** idempotencyPrincipal. */
  function Principal(sender: Sender): string {
    match sender
    case User(id) => "user:" + id
    case Client(id) => "client:" + id
    case Anonymous => "anonymous"
  }

  /** Two senders never share a key. */
  lemma PrincipalTellsSenders(a: Sender, b: Sender)
    requires Principal(a) == Principal(b)
    ensures a == b
  {
    assert Principal(a)[0] == Principal(b)[0];
    if a.User? && b.User? {
      assert Principal(a)[5..] == a.id && Principal(b)[5..] == b.id;
    } else if a.Client? && b.Client? {
      assert Principal(a)[7..] == a.id && Principal(b)[7..] == b.id;
    }
  }

  /** A request as it reaches the middleware; strings are byte strings. */
  datatype Http = Http(httpMethod: string, uri: string, body: string, readable: bool, key: string,
                       tenant: Option<Id>, user: Option<string>, client: Option<string>)

  const MAX_BODY_BYTES := 0x10_0000

  datatype Verdict = NotKeyed | BadKey | Unauthorized | Unreadable | TooLarge | Keyed(answer: Answer)

  /** The refusals that come before the table is touched, in the order in which they are checked. */
  predicate Admitted(h: Http) {
    h.httpMethod == "POST" && ValidKey(h.key) && h.tenant.Some? && h.readable && |h.body| <= MAX_BODY_BYTES
  }

  function RequestOf(h: Http, ttl: nat): Request
    requires h.tenant.Some?
  {
    Request(Scope(h.tenant.value, Principal(SenderOf(h.user, h.client)), h.key),
            Fingerprint(h.httpMethod, h.uri, h.body), ttl)
  }

  // ----- The middleware -----

  class IdempotencyMiddleware {
    const store: IdempotencyRepository

    constructor (store: IdempotencyRepository)
      ensures this.store == store
    {
      this.store := store;
    }

    method Interleave(w: World, k: nat)
      modifies store
      ensures store.rows == w.others(k, old(store.rows))
    {
      store.rows := w.others(k, store.rows);
    }

    /** Idempotency. A request it does not admit never touches the table. */
    method Handle(h: Http, id: Id, ttl: nat, at: Time, w: World) returns (v: Verdict)
      modifies store
      ensures v.Keyed? <==> Admitted(h)
      ensures v.NotKeyed? <==> h.httpMethod != "POST" || h.key == ""
      ensures v.BadKey? <==> h.httpMethod == "POST" && h.key != "" && !ValidKey(h.key)
      ensures v.Unauthorized? <==> h.httpMethod == "POST" && ValidKey(h.key) && h.tenant.None?
      ensures v.Unreadable? <==> h.httpMethod == "POST" && ValidKey(h.key) && h.tenant.Some? && !h.readable
      ensures !v.Keyed? ==> store.rows == old(store.rows)
      ensures v.Keyed? ==>
        Run(old(store.rows), id, Call(RequestOf(h, ttl), Arrived(at)), w, 0) == (store.rows, Done(v.answer))
    {
      if h.httpMethod != "POST" || h.key == "" {
        return NotKeyed;
      }
      var valid := ValidIdempotencyKey(h.key);
      if !valid {
        return BadKey;
      }
      if h.tenant.None? {
        return Unauthorized;
      }
      if !h.readable {
        return Unreadable;
      }
      if |h.body| > MAX_BODY_BYTES {
        return TooLarge;
      }
      var answer := Serve(id, RequestOf(h, ttl), at, w);
      return Keyed(answer);
    }

    /** Idempotency from the record on: the statements of a request that carries a valid key. */
    method Serve(id: Id, req: Request, at: Time, w: World) returns (answer: Answer)
      modifies store
      ensures Run(old(store.rows), id, Call(req, Arrived(at)), w, 0) == (store.rows, Done(answer))
      ensures Undisturbed(w) && IsNew(old(store.rows), id) ==>
        ServedAlone(old(store.rows), id, req, w, store.rows, answer)
    {
      if Undisturbed(w) && IsNew(store.rows, id) {
        ServeAlone(store.rows, id, req, at, w);
      }
      RunStep(store.rows, id, Call(req, Arrived(at)), w, 0);
      Interleave(w, 0);
      var e := w.env(0);
      var expires, staleBefore, now := e.stampedAt + req.ttl, e.agedAt - STALE_AFTER, e.now;
      RunStep(store.rows, id, Call(req, Ready(expires, staleBefore, now)), w, 1);
      Interleave(w, 1);
      if w.env(1).fails {
        return ServerError;
      }
      var stored := store.Upsert(req.scope, Record(id, req.fingerprint, None, now, expires), staleBefore);
      if !stored {
        RunStep(store.rows, id, Call(req, Reading), w, 2);
        Interleave(w, 2);
        var existing := store.Find(req.scope);
        if w.env(2).fails {
          return ServerError;
        }
        if existing.None? {
          return InProgress;
        }
        return ReplayOrReject(existing.value, req.fingerprint);
      }
      answer := Execute(id, req, w);
    }

    /** The handler, then the response into the record, or the record out of the way. */
    method Execute(id: Id, req: Request, w: World) returns (answer: Answer)
      modifies store
      ensures Run(old(store.rows), id, Call(req, Running), w, 2) == (store.rows, Done(answer))
    {
      RunStep(store.rows, id, Call(req, Running), w, 2);
      Interleave(w, 2);
      var h := w.env(2).handled;
      if h.Panicked? || h.response.status >= 500 || h.oversized {
        Release(id, req, h, w, 3);
        return Handler(h);
      }
      RunStep(store.rows, id, Call(req, Storing(h)), w, 3);
      Interleave(w, 3);
      if w.env(3).fails {
        Release(id, req, h, w, 4);
        return Handler(h);
      }
      var body := RedactResponse(h.response.body);
      store.Complete(id, h.response.(body := body));
      return Handler(h);
    }

    /** The deferred release; its failure is only logged. */
    method Release(id: Id, ghost req: Request, h: Handled, w: World, k: nat)
      modifies store
      ensures Run(old(store.rows), id, Call(req, Releasing(h)), w, k) == (store.rows, Done(Handler(h)))
    {
      RunStep(store.rows, id, Call(req, Releasing(h)), w, k);
      Interleave(w, k);
      if !w.env(k).fails {
        store.Delete(id);
      }
    }
  }
}
