/**
 * Requests that carry an Idempotency-Key (internal/middleware/idempotency.go), interleaved statement by
 * statement with each other, with crashes of their servers and with the cleanup of expired records.
 */
module IdempotencyMachine {
  import opened Common
  import opened Redaction
  import opened IdempotencyTable

  const STALE_AFTER := 60

  datatype Request = Request(scope: Scope, fingerprint: Hash, ttl: nat)

  /** What running the handler ends in; an oversized body is more than 1 MiB. */
  datatype Handled = Responded(response: Response, oversized: bool) | Panicked

  datatype Answer =
    | Handler(handled: Handled)
    | Replayed(response: Response)
    | Mismatch
    | InProgress
    | ServerError

  /** The statement a request runs next, with the local variables it still needs. */
  datatype Pc =
    | Arrived(at: Time)
    | Ready(expires: Time, staleBefore: Time, now: Time)
    | Reading
    | Running
    | Storing(handled: Handled)
    | Releasing(handled: Handled)
    | Done(answer: Answer)
    | Crashed

  datatype Call = Call(req: Request, pc: Pc)

  /** What a step is given from outside: clock readings, a storage error, and the handler's response. */
  datatype Env = Env(stampedAt: Time, agedAt: Time, now: Time, fails: bool, handled: Handled)

  datatype Effect = Nothing | Begin(r: Record, staleBefore: Time) | Complete(response: Response) | Release

  function Perform(rows: Table, id: Id, scope: Scope, effect: Effect): Table {
    match effect
    case Nothing => rows
    case Begin(r, staleBefore) => Begun(rows, scope, r, staleBefore)
    case Complete(response) => Completed(rows, id, response)
    case Release => Released(rows, id)
  }

  /** The stored form of a response. */
  function ForStorage(r: Response): Response {
    r.(body := RedactBody(r.body))
  }

  /** replayOrReject. */
  function ReplayOrReject(r: Record, fingerprint: Hash): Answer {
    if r.fingerprint != fingerprint then Mismatch
    else if r.response.None? then InProgress
    else Replayed(Served(r.response.value))
  }

  function Served(r: Response): Response {
    if r.contentType == "" then r.(contentType := "application/octet-stream") else r
  }

  /** Server errors and bodies over 1 MiB are not stored. */
  predicate Storable(h: Handled) {
    h.Responded? && h.response.status < 500 && !h.oversized
  }

  function AfterHandler(h: Handled): Pc {
    if Storable(h) then Storing(h) else Releasing(h)
  }

  /** The statement a request runs next on the table, and where the request is after it. Its id is the
      fresh UUID of the record it inserts. */
  function Decide(rows: Table, id: Id, c: Call, e: Env): (Effect, Pc)
    requires WellFormed(c)
  {
    match c.pc
    case Arrived(_) => (Nothing, Ready(e.stampedAt + c.req.ttl, e.agedAt - STALE_AFTER, e.now))
    case Ready(expires, staleBefore, now) =>
      if e.fails then (Nothing, Done(ServerError))
      else
        (Begin(Record(id, c.req.fingerprint, None, now, expires), staleBefore),
         if Free(rows, c.req.scope, now, staleBefore) then Running else Reading)
    case Reading =>
      if e.fails then (Nothing, Done(ServerError))
      else if c.req.scope !in rows then (Nothing, Done(InProgress))
      else (Nothing, Done(ReplayOrReject(rows[c.req.scope], c.req.fingerprint)))
    case Running => (Nothing, AfterHandler(e.handled))
    case Storing(h) =>
      if e.fails then (Nothing, Releasing(h)) else (Complete(ForStorage(h.response)), Done(Handler(h)))
    case Releasing(h) => (if e.fails then Nothing else Release, Done(Handler(h)))
    case _ => (Nothing, c.pc)
  }

  predicate WellFormed(c: Call) {
    c.pc.Storing? ==> c.pc.handled.Responded?
  }

  predicate Ended(pc: Pc) {
    pc.Done? || pc.Crashed?
  }

  // ----- The machine -----

  /** A request that ran its handler: the record it inserted, when, and as which of all of them. */
  datatype Start = Start(req: Request, created: Time, expires: Time, at: Time, no: nat)

  /** What the table no longer tells: when requests arrived, the handler runs, the responses stored, and which
      records their own request deleted, each with the number of handler runs begun by then. */
  datatype History = History(
    arrivals: map<Id, Time>, starts: map<Id, Start>, stored: map<Id, Response>, released: map<Id, nat>, count: nat)

  datatype State = State(rows: Table, calls: map<Id, Call>, now: Time, past: History)

  datatype Event =
    | Arrive(id: Id, req: Request)
    | Step(id: Id, env: Env)
    | Crash(id: Id)
    | Clean
    | Tick(to: Time)

  ghost predicate Enabled(s: State, ev: Event) {
    match ev
    case Arrive(id, _) => id !in s.calls
    case Step(id, e) =>
      && id in s.calls && !Ended(s.calls[id].pc) && WellFormed(s.calls[id]) && e.now == s.now
      && (s.calls[id].pc.Arrived? ==> s.calls[id].pc.at <= e.stampedAt <= e.agedAt <= e.now)
    case Crash(id) => id in s.calls && !Ended(s.calls[id].pc)
    case Clean => true
    case Tick(to) => s.now <= to
  }

  ghost predicate HasRow(rows: Table, id: Id) {
    exists scope :: scope in rows && rows[scope].id == id
  }

  ghost function Recorded(s: State, id: Id, effect: Effect, pc: Pc): History
    requires id in s.calls
  {
    var h := s.past;
    var c := s.calls[id];
    match effect
    case Begin(r, _) =>
      if pc.Running? then
        h.(starts := h.starts[id := Start(c.req, r.created, r.expires, s.now, h.count)], count := h.count + 1)
      else h
    case Complete(response) => if HasRow(s.rows, id) then h.(stored := h.stored[id := response]) else h
    case Release => if HasRow(s.rows, id) then h.(released := h.released[id := h.count]) else h
    case Nothing => h
  }

  ghost function Apply(s: State, ev: Event): State
    requires Enabled(s, ev)
  {
    match ev
    case Arrive(id, req) =>
      s.(calls := s.calls[id := Call(req, Arrived(s.now))],
         past := s.past.(arrivals := s.past.arrivals[id := s.now]))
    case Step(id, e) =>
      var c := s.calls[id];
      var (effect, pc) := Decide(s.rows, id, c, e);
      State(Perform(s.rows, id, c.req.scope, effect), s.calls[id := c.(pc := pc)], s.now,
            Recorded(s, id, effect, pc))
    case Crash(id) => s.(calls := s.calls[id := s.calls[id].(pc := Crashed)])
    case Clean => s.(rows := Unexpired(s.rows, s.now))
    case Tick(to) => s.(now := to)
  }

  ghost predicate Next(s: State, s': State) {
    exists ev :: Enabled(s, ev) && s' == Apply(s, ev)
  }

  /** The k-th state of the run leads to the next. */
  ghost predicate StepAt(run: seq<State>, k: nat) {
    k + 1 < |run| && Next(run[k], run[k + 1])
  }

  ghost predicate IsRun(run: seq<State>) {
    && |run| > 0
    && (exists now :: run[0] == State(map[], map[], now, History(map[], map[], map[], map[], 0)))
    && forall k: nat :: k + 1 < |run| ==> StepAt(run, k)
  }

  // ----- The invariant -----

  /** Every record was inserted by the request it names. */
  ghost predicate RowOk(s: State, scope: Scope) {
    scope in s.rows &&
    var r := s.rows[scope];
    && r.id in s.past.starts
    && var t := s.past.starts[r.id];
    && t.req.scope == scope && t.req.fingerprint == r.fingerprint && t.created == r.created
    && t.expires == r.expires
    && (if r.id in s.past.stored then r.response == Some(s.past.stored[r.id]) else r.response.None?)
  }

  ghost predicate RowsOk(s: State) {
    forall scope :: scope in s.rows ==> RowOk(s, scope)
  }

  ghost predicate CallOk(s: State, i: Id, c: Call) {
    && WellFormed(c)
    && i in s.past.arrivals
    && (i in s.past.starts ==>
          && s.past.starts[i].req == c.req
          && Lasts(s.past.starts[i].expires, s.past.arrivals[i], s.past.starts[i].created, c.req.ttl))
    && (i in s.past.stored ==> StoredFrom(c.pc, s.past.stored[i]))
    && match c.pc
       case Arrived(at) => i !in s.past.starts && at == s.past.arrivals[i] <= s.now
       case Ready(expires, staleBefore, now) =>
         && i !in s.past.starts && now <= s.now && staleBefore <= now - STALE_AFTER
         && Lasts(expires, s.past.arrivals[i], now, c.req.ttl)
       case Reading => i !in s.past.starts
       case Running => i in s.past.starts && i !in s.past.stored && i !in s.past.released
       case Storing(h) =>
         i in s.past.starts && i !in s.past.stored && i !in s.past.released && Storable(h)
       case Releasing(_) => i in s.past.starts && i !in s.past.stored && i !in s.past.released
       case Done(Replayed(r)) => exists k :: Source(s, k, c.req, r)
       case _ => true
  }

  /** A record expires the lifetime after some instant between the arrival of its request and its insert. */
  predicate Lasts(expires: Time, arrived: Time, created: Time, ttl: nat) {
    arrived + ttl <= expires <= created + ttl
  }

  /** The stored response is the redacted form of the one the request was itself answered with. */
  predicate StoredFrom(pc: Pc, r: Response) {
    && pc.Done? && pc.answer.Handler? && Storable(pc.answer.handled)
    && r == ForStorage(pc.answer.handled.response)
  }

  /** The response r was stored for a request with the same key and fingerprint. */
  ghost predicate Source(s: State, k: Id, req: Request, r: Response) {
    && k in s.past.starts && s.past.starts[k].req.scope == req.scope
    && s.past.starts[k].req.fingerprint == req.fingerprint
    && k in s.past.stored && r == Served(s.past.stored[k])
  }

  ghost predicate CallsOk(s: State) {
    && (forall i :: i in s.calls ==> CallOk(s, i, s.calls[i]))
    && s.past.starts.Keys <= s.calls.Keys
    && s.past.stored.Keys <= s.past.starts.Keys && s.past.released.Keys <= s.past.starts.Keys
    && s.past.stored.Keys !! s.past.released.Keys
  }

  /** The record of a handler run is no longer there: deleted by its request, expired, or taken over
      unanswered after a minute. */
  ghost predicate Over(past: History, i: Id, now: Time, no: nat)
    requires i in past.starts
  {
    || (i in past.released && past.released[i] <= no)
    || past.starts[i].expires < now
    || (past.starts[i].created < now - STALE_AFTER && i !in past.stored)
  }

  ghost predicate Holds(rows: Table, past: History, i: Id)
    requires i in past.starts
  {
    past.starts[i].req.scope in rows && rows[past.starts[i].req.scope].id == i
  }

  /** Before the handler run j began, the record of the earlier run i was over. */
  ghost predicate InOrder(rows: Table, past: History, i: Id, j: Id)
    requires i in past.starts && j in past.starts
  {
    && (i != j ==> past.starts[i].no != past.starts[j].no)
    && (Before(past.starts[i], past.starts[j]) ==>
          !Holds(rows, past, i) && Over(past, i, past.starts[j].at, past.starts[j].no))
  }

  ghost predicate Accounted(rows: Table, past: History, i: Id, now: Time)
    requires i in past.starts
  {
    past.starts[i].no < past.count && (Holds(rows, past, i) || Over(past, i, now, past.count))
  }

  ghost predicate StartsOk(rows: Table, past: History, now: Time) {
    && (forall i :: i in past.released ==> past.released[i] <= past.count)
    && (forall i :: i in past.starts ==> Accounted(rows, past, i, now))
    && (forall i, j :: i in past.starts && j in past.starts ==> InOrder(rows, past, i, j))
  }

  predicate Before(a: Start, b: Start) {
    a.req.scope == b.req.scope && a.no < b.no
  }

  ghost predicate Inv(s: State) {
    RowsOk(s) && CallsOk(s) && StartsOk(s.rows, s.past, s.now)
  }

  // ----- Every event keeps it -----

  lemma RowsAreHeld(s: State, i: Id)
    requires RowsOk(s) && HasRow(s.rows, i)
    ensures i in s.past.starts && Holds(s.rows, s.past, i)
    ensures forall scope :: scope in s.rows && s.rows[scope].id == i ==> scope == s.past.starts[i].req.scope
  {
  }

  lemma RowStaysOk(s: State, s': State, scope: Scope)
    requires RowOk(s, scope) && scope in s'.rows && s'.rows[scope] == s.rows[scope]
    requires var i := s.rows[scope].id; i in s'.past.starts && s'.past.starts[i] == s.past.starts[i]
    requires var i := s.rows[scope].id; i in s'.past.stored <==> i in s.past.stored
    requires var i := s.rows[scope].id; i in s.past.stored ==> s'.past.stored[i] == s.past.stored[i]
    ensures RowOk(s', scope)
  {
  }

  lemma BeginKeepsRows(s: State, i: Id, e: Env)
    requires RowsOk(s) && CallsOk(s) && Enabled(s, Step(i, e)) && s.calls[i].pc.Ready?
    ensures RowsOk(Apply(s, Step(i, e)))
  {
  }

  lemma CompleteKeepsRows(s: State, i: Id, e: Env)
    requires RowsOk(s) && Enabled(s, Step(i, e)) && s.calls[i].pc.Storing?
    ensures RowsOk(Apply(s, Step(i, e)))
  {
  }

  lemma StepKeepsRows(s: State, i: Id, e: Env)
    requires RowsOk(s) && CallsOk(s) && Enabled(s, Step(i, e))
    ensures RowsOk(Apply(s, Step(i, e)))
  {
    if s.calls[i].pc.Ready? {
      BeginKeepsRows(s, i, e);
    } else if s.calls[i].pc.Storing? {
      CompleteKeepsRows(s, i, e);
    } else {
      var s' := Apply(s, Step(i, e));
      forall scope | scope in s'.rows ensures RowOk(s', scope) {
        RowStaysOk(s, s', scope);
      }
    }
  }

  /** What is recorded stays recorded, and only request i gets new records. */
  ghost predicate Grows(past: History, past': History, i: Id) {
    && (forall k :: k in past.arrivals && k != i ==> k in past'.arrivals && past'.arrivals[k] == past.arrivals[k])
    && (forall k :: k in past.starts ==> k in past'.starts && past'.starts[k] == past.starts[k])
    && (forall k :: k in past.stored ==> k in past'.stored && past'.stored[k] == past.stored[k])
    && (forall k :: k in past'.starts ==> k in past.starts || k == i)
    && (forall k :: k in past'.stored ==> k in past.stored || k == i)
    && (forall k :: k in past'.released ==> k in past.released || k == i)
  }

  lemma OthersStayOk(s: State, s': State, i: Id, k: Id, c: Call)
    requires Grows(s.past, s'.past, i) && s.now <= s'.now && k != i && CallOk(s, k, c)
    ensures CallOk(s', k, c)
  {
    if c.pc.Done? && c.pc.answer.Replayed? {
      var m :| Source(s, m, c.req, c.pc.answer.response);
      assert Source(s', m, c.req, c.pc.answer.response);
    }
  }

  lemma StepRecords(s: State, i: Id, e: Env)
    requires Enabled(s, Step(i, e))
    requires s.calls[i].pc.Ready? ==> i !in s.past.starts
    requires s.calls[i].pc.Storing? ==> i !in s.past.stored
    ensures Grows(s.past, Apply(s, Step(i, e)).past, i)
  {
  }

  lemma StepperStaysOk(s: State, i: Id, e: Env)
    requires RowsOk(s) && CallsOk(s) && Enabled(s, Step(i, e))
    ensures var s' := Apply(s, Step(i, e)); CallOk(s', i, s'.calls[i])
  {
    var c := s.calls[i];
    assert CallOk(s, i, c);
    if c.pc.Reading? && c.req.scope in s.rows {
      assert RowOk(s, c.req.scope);
      var s' := Apply(s, Step(i, e));
      var k := s.rows[c.req.scope].id;
      if s'.calls[i].pc.answer.Replayed? {
        assert Source(s', k, c.req, s'.calls[i].pc.answer.response);
      }
    }
  }

  lemma StepKeepsCalls(s: State, i: Id, e: Env)
    requires RowsOk(s) && CallsOk(s) && Enabled(s, Step(i, e))
    ensures CallsOk(Apply(s, Step(i, e)))
  {
    var s' := Apply(s, Step(i, e));
    assert CallOk(s, i, s.calls[i]);
    StepRecords(s, i, e);
    StepperStaysOk(s, i, e);
    forall k | k in s'.calls ensures CallOk(s', k, s'.calls[k]) {
      if k != i {
        assert CallOk(s, k, s.calls[k]);
        OthersStayOk(s, s', i, k, s.calls[k]);
      }
    }
  }

  lemma ExpiryKeepsStarts(s: State, rows: Table, now: Time)
    requires RowsOk(s) && StartsOk(s.rows, s.past, s.now) && s.now <= now
    requires rows == s.rows || rows == Unexpired(s.rows, now)
    ensures StartsOk(rows, s.past, now)
  {
    forall i | i in s.past.starts ensures Accounted(rows, s.past, i, now) {
      assert Accounted(s.rows, s.past, i, s.now);
      if Holds(s.rows, s.past, i) {
        assert RowOk(s, s.past.starts[i].req.scope);
      }
    }
    forall i, j | i in s.past.starts && j in s.past.starts ensures InOrder(rows, s.past, i, j) {
      assert InOrder(s.rows, s.past, i, j);
    }
  }

  /** A dead record taken over is over at the time of the takeover. */
  lemma TakenOverIsOver(s: State, t: Start, staleBefore: Time, i: Id)
    requires RowsOk(s) && StartsOk(s.rows, s.past, s.now)
    requires Free(s.rows, t.req.scope, t.created, staleBefore)
    requires t.created <= s.now == t.at && staleBefore <= t.created - STALE_AFTER && t.no == s.past.count
    requires i in s.past.starts && s.past.starts[i].req.scope == t.req.scope
    ensures Over(s.past, i, s.now, s.past.count)
  {
  }

  lemma BeginKeepsStarts(s: State, t: Start, i: Id, staleBefore: Time, rows: Table, past: History)
    requires RowsOk(s) && StartsOk(s.rows, s.past, s.now) && i !in s.past.starts
    requires Free(s.rows, t.req.scope, t.created, staleBefore)
    requires t.created <= s.now == t.at && staleBefore <= t.created - STALE_AFTER && t.no == s.past.count
    requires t.req.scope in rows && rows == s.rows[t.req.scope := rows[t.req.scope]] && rows[t.req.scope].id == i
    requires past == s.past.(starts := s.past.starts[i := t], count := s.past.count + 1)
    ensures StartsOk(rows, past, s.now)
  {
    forall k | k in past.starts ensures Accounted(rows, past, k, s.now) {
      if k != i {
        assert Accounted(s.rows, s.past, k, s.now);
        if s.past.starts[k].req.scope == t.req.scope {
          TakenOverIsOver(s, t, staleBefore, k);
        }
      }
    }
    forall k, l | k in past.starts && l in past.starts ensures InOrder(rows, past, k, l) {
      if k != i {
        assert Accounted(s.rows, s.past, k, s.now);
        if l != i {
          assert InOrder(s.rows, s.past, k, l);
        } else if s.past.starts[k].req.scope == t.req.scope {
          TakenOverIsOver(s, t, staleBefore, k);
        }
      } else if l != i {
        assert Accounted(s.rows, s.past, l, s.now);
      }
    }
  }

  /** The request recorded something about its own run while it holds its record. */
  lemma RecordingKeepsStarts(s: State, i: Id, rows: Table, past: History)
    requires StartsOk(s.rows, s.past, s.now) && i in s.past.starts && Holds(s.rows, s.past, i)
    requires past.starts == s.past.starts && past.count == s.past.count
    requires forall k :: k in past.released && k != i ==> k in s.past.released && past.released[k] == s.past.released[k]
    requires forall k :: k in s.past.released && k != i ==> k in past.released
    requires forall k :: k != i ==> (k in past.stored <==> k in s.past.stored)
    requires i in past.released ==> past.released[i] <= past.count
    requires forall k :: k in past.starts && k != i ==> (Holds(rows, past, k) <==> Holds(s.rows, s.past, k))
    requires Holds(rows, past, i) || (i in past.released && past.released[i] == past.count)
    ensures StartsOk(rows, past, s.now)
  {
    forall k | k in past.starts ensures Accounted(rows, past, k, s.now) {
      assert Accounted(s.rows, s.past, k, s.now);
    }
    forall k, l | k in past.starts && l in past.starts ensures InOrder(rows, past, k, l) {
      assert InOrder(s.rows, s.past, k, l);
    }
  }

  lemma CompleteKeepsStarts(s: State, i: Id, response: Response, past: History)
    requires RowsOk(s) && StartsOk(s.rows, s.past, s.now) && i !in s.past.released
    requires past == if HasRow(s.rows, i) then s.past.(stored := s.past.stored[i := response]) else s.past
    ensures StartsOk(Completed(s.rows, i, response), past, s.now)
  {
    if HasRow(s.rows, i) {
      RowsAreHeld(s, i);
      RecordingKeepsStarts(s, i, Completed(s.rows, i, response), past);
    } else {
      assert Completed(s.rows, i, response) == s.rows;
    }
  }

  lemma ReleaseKeepsStarts(s: State, i: Id, past: History)
    requires RowsOk(s) && StartsOk(s.rows, s.past, s.now) && i !in s.past.released
    requires past == if HasRow(s.rows, i) then s.past.(released := s.past.released[i := s.past.count]) else s.past
    ensures StartsOk(Released(s.rows, i), past, s.now)
  {
    if HasRow(s.rows, i) {
      RowsAreHeld(s, i);
      RecordingKeepsStarts(s, i, Released(s.rows, i), past);
    } else {
      assert Released(s.rows, i) == s.rows;
    }
  }

  lemma StepKeepsStarts(s: State, i: Id, e: Env)
    requires Inv(s) && Enabled(s, Step(i, e))
    ensures var s' := Apply(s, Step(i, e)); StartsOk(s'.rows, s'.past, s.now)
  {
    var c := s.calls[i];
    var s' := Apply(s, Step(i, e));
    assert CallOk(s, i, c);
    match Decide(s.rows, i, c, e).0
    case Begin(r, staleBefore) =>
      if s'.calls[i].pc.Running? {
        BeginKeepsStarts(s, s'.past.starts[i], i, staleBefore, s'.rows, s'.past);
      }
    case Complete(response) => CompleteKeepsStarts(s, i, response, s'.past);
    case Release => ReleaseKeepsStarts(s, i, s'.past);
    case Nothing =>
  }

  lemma EventKeepsInv(s: State, ev: Event)
    requires Inv(s) && Enabled(s, ev)
    ensures Inv(Apply(s, ev))
  {
    match ev
    case Step(i, e) =>
      StepKeepsRows(s, i, e);
      StepKeepsCalls(s, i, e);
      StepKeepsStarts(s, i, e);
    case Clean => OthersKeepInv(s, ev, Unexpired(s.rows, s.now), s.now);
    case Tick(to) => OthersKeepInv(s, ev, s.rows, to);
    case _ => OthersKeepInv(s, ev, s.rows, s.now);
  }

  lemma OthersKeepCalls(s: State, ev: Event)
    requires CallsOk(s) && Enabled(s, ev) && !ev.Step?
    ensures CallsOk(Apply(s, ev))
  {
    var s' := Apply(s, ev);
    forall k | k in s'.calls ensures CallOk(s', k, s'.calls[k]) {
      if k in s.calls {
        assert CallOk(s, k, s.calls[k]);
        if s'.calls[k] == s.calls[k] {
          OthersStayOk(s, s', if ev.Arrive? then ev.id else k + 1, k, s.calls[k]);
        }
      }
    }
  }

  lemma OthersKeepRows(s: State, ev: Event)
    requires RowsOk(s) && Enabled(s, ev) && !ev.Step?
    ensures RowsOk(Apply(s, ev))
  {
    forall scope | scope in Apply(s, ev).rows ensures RowOk(Apply(s, ev), scope) {
      assert RowOk(s, scope);
    }
  }

  lemma ArrivalsKeepStarts(rows: Table, past: History, arrivals: map<Id, Time>, now: Time)
    requires StartsOk(rows, past, now)
    ensures StartsOk(rows, past.(arrivals := arrivals), now)
  {
    var past' := past.(arrivals := arrivals);
    forall i | i in past'.starts ensures Accounted(rows, past', i, now) {
      assert Accounted(rows, past, i, now);
    }
    forall i, j | i in past'.starts && j in past'.starts ensures InOrder(rows, past', i, j) {
      assert InOrder(rows, past, i, j);
    }
  }

  lemma OthersKeepInv(s: State, ev: Event, rows: Table, now: Time)
    requires Inv(s) && Enabled(s, ev) && !ev.Step? && s.now <= now
    requires Apply(s, ev).rows == rows && Apply(s, ev).now == now
    requires rows == s.rows || rows == Unexpired(s.rows, now)
    ensures Inv(Apply(s, ev))
  {
    OthersKeepRows(s, ev);
    OthersKeepCalls(s, ev);
    ExpiryKeepsStarts(s, rows, now);
    ArrivalsKeepStarts(rows, s.past, Apply(s, ev).past.arrivals, now);
  }

  lemma {:induction false} RunInv(run: seq<State>, k: nat)
    requires IsRun(run) && k < |run|
    ensures Inv(run[k])
  {
    if k > 0 {
      RunInv(run, k - 1);
      assert StepAt(run, k - 1);
      var ev :| Enabled(run[k - 1], ev) && run[k] == Apply(run[k - 1], ev);
      EventKeepsInv(run[k - 1], ev);
    }
  }
}
