/**
 * What one keyed request does from beginning to end when no other request runs and no statement errs, told by
 * the record before it and after it.
 */
module IdempotencyAlone {
  import opened Common
  import opened Redaction
  import opened IdempotencyTable
  import opened IdempotencyMachine
  import opened IdempotencyRuns

  /** The id of the record that the request inserts is a fresh UUID. */
  ghost predicate IsNew(rows: Table, id: Id) {
    forall scope :: scope in rows ==> rows[scope].id != id
  }

  /** The record is unexpired, and it was answered or is not a minute old: it stands for its request. */
  predicate Stands(r: Record, e: Env) {
    r.expires >= e.now && (r.response.Some? || r.created >= e.agedAt - 60)
  }

  /** What a request is told of a record that stands: a replay of the stored response if it is the same request,
      a conflict while that is unanswered, and a mismatch if it is another. */
  predicate Tells(r: Record, fingerprint: Hash, answer: Answer) {
    && (answer == Mismatch <==> r.fingerprint != fingerprint)
    && (answer == InProgress <==> r.fingerprint == fingerprint && r.response.None?)
    && (r.fingerprint == fingerprint && r.response.Some? ==>
          var v := r.response.value;
          answer == Replayed(Response(
            v.status, if v.contentType == "" then "application/octet-stream" else v.contentType, v.body)))
  }

  /** The response is kept for later replays. */
  predicate Kept(h: Handled) {
    h.Responded? && !h.oversized && h.response.status < 500
  }

  /**
   * A request alone. If a record stands the handler does not run, and nothing changes. Otherwise it runs once,
   * and its answer is the handler's; the record left behind holds the redacted response for the lifetime asked
   * for, or there is none if the handler panicked, failed or answered too much.
   */
  ghost predicate ServedAlone(rows: Table, id: Id, req: Request, w: World, rows': Table, answer: Answer) {
    var e, h := w.env(0), w.env(2).handled;
    if req.scope in rows && Stands(rows[req.scope], e) then
      rows' == rows && Tells(rows[req.scope], req.fingerprint, answer)
    else
      && answer == Handler(h)
      && (Kept(h) ==>
            var stored := h.response.(body := RedactBody(h.response.body));
            rows' == rows[req.scope := Record(id, req.fingerprint, Some(stored), e.now, e.stampedAt + req.ttl)])
      && (!Kept(h) ==> rows' == rows - {req.scope})
  }

  lemma HandlerAlone(rows: Table, id: Id, req: Request, r: Record, w: World)
    requires Undisturbed(w) && IsNew(rows, id) && r.id == id && r.response.None?
    ensures var h := w.env(2).handled;
      Run(rows[req.scope := r], id, Call(req, Running), w, 2) ==
        (if Kept(h) then rows[req.scope := r.(response := Some(h.response.(body := RedactBody(h.response.body))))]
         else rows - {req.scope},
         Done(Handler(h)))
  {
    assert Quiet(w, 2) && Quiet(w, 3);
    var h := w.env(2).handled;
    var begun := rows[req.scope := r];
    RunStep(begun, id, Call(req, Running), w, 2);
    if Kept(h) {
      RunStep(begun, id, Call(req, Storing(h)), w, 3);
      var stored := h.response.(body := RedactBody(h.response.body));
      assert Completed(begun, id, stored) == rows[req.scope := r.(response := Some(stored))];
    } else {
      RunStep(begun, id, Call(req, Releasing(h)), w, 3);
      assert Released(begun, id) == rows - {req.scope};
    }
  }

  lemma ServeAlone(rows: Table, id: Id, req: Request, at: Time, w: World)
    requires Undisturbed(w) && IsNew(rows, id)
    ensures var (rows', pc) := Run(rows, id, Call(req, Arrived(at)), w, 0);
      pc.Done? && ServedAlone(rows, id, req, w, rows', pc.answer)
  {
    assert Quiet(w, 0) && Quiet(w, 1) && Quiet(w, 2);
    var e := w.env(0);
    RunStep(rows, id, Call(req, Arrived(at)), w, 0);
    RunStep(rows, id, Call(req, Ready(e.stampedAt + req.ttl, e.agedAt - STALE_AFTER, e.now)), w, 1);
    if req.scope in rows && Stands(rows[req.scope], e) {
      RunStep(rows, id, Call(req, Reading), w, 2);
    } else {
      HandlerAlone(rows, id, req, Record(id, req.fingerprint, None, e.now, e.stampedAt + req.ttl), w);
    }
  }

  // ----- Among others -----

  /** Whatever others do, a request that inserts while a record of its key stands leaves it alone and goes on to
      read; and what it reads then decides its answer. */
  lemma StandingRecordDecides(s: State, i: Id, e: Env)
    requires Enabled(s, Step(i, e)) && !e.fails && s.calls[i].req.scope in s.rows
    ensures var r, pc, s' := s.rows[s.calls[i].req.scope], s.calls[i].pc, Apply(s, Step(i, e));
      && (pc.Ready? && r.expires >= pc.now && (r.response.Some? || r.created >= pc.staleBefore) ==>
            s'.rows == s.rows && s'.calls[i].pc == Reading)
      && (pc.Reading? ==>
            s'.rows == s.rows && s'.calls[i].pc.Done? && Tells(r, s.calls[i].req.fingerprint, s'.calls[i].pc.answer))
  {
  }
}
