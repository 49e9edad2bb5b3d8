/** What holds over every run of the calls of DeviceGrant, with expiry cleanup between them. */
module DeviceRuns {
  import opened Common
  import opened DeviceGrant

  datatype Granted = Granted(grant: Grant, at: Time)

  /** What happened to one device code: its row when it was created, every decision and every recorded poll
      with its time, and every grant. */
  datatype Story = Story(
    created: DeviceRow, decisions: seq<(Decision, Time)>, polls: seq<Time>, grants: seq<Granted>)

  datatype State = State(rows: Table, now: Time, past: map<Hash, Story>)

  datatype Event =
    | Create(h: Hash, row: DeviceRow)
    | Decide(h: Hash, d: Decision)
    | Poll(tenant: Id, client: Id, h: Hash, e: Env)
    | Clean
    | Tick(to: Time)

  /** A device code is 48 random bytes, so it is new. Decide is resolveDeviceCode on a row that carries the
      user code. */
  ghost predicate Enabled(s: State, ev: Event) {
    match ev
    case Create(h, row) => h !in s.past && row.status == Pending && row.lastPolled.None?
    case Decide(h, _) => h in s.rows
    case Poll(_, _, _, e) => e.now == s.now
    case Clean => true
    case Tick(to) => s.now <= to
  }

  /** The call read the row and got as far as recording the poll. */
  predicate RecordsPoll(rows: Table, tenant: Id, client: Id, h: Hash, e: Env) {
    && h in rows && rows[h].tenant == tenant && rows[h].client == client && e.now < rows[h].expires
    && !e.updateFails
  }

  ghost function Told(s: State, ev: Event): map<Hash, Story>
    requires Enabled(s, ev)
  {
    match ev
    case Create(h, row) => s.past[h := Story(row, [], [], [])]
    case Decide(h, d) =>
      if h in s.past && Resolve(s.rows, h, d, s.now).1.None? then
        s.past[h := s.past[h].(decisions := s.past[h].decisions + [(d, s.now)])]
      else s.past
    case Poll(tenant, client, h, e) =>
      if h !in s.past then s.past
      else
        var r := Exchange(s.rows, tenant, client, h, e).1;
        if r.Ok? then s.past[h := s.past[h].(grants := s.past[h].grants + [Granted(r.value, s.now)])]
        else if RecordsPoll(s.rows, tenant, client, h, e) then
          s.past[h := s.past[h].(polls := s.past[h].polls + [s.now])]
        else s.past
    case _ => s.past
  }

  ghost function Apply(s: State, ev: Event): State
    requires Enabled(s, ev)
  {
    match ev
    case Create(h, row) => State(s.rows[h := row], s.now, Told(s, ev))
    case Decide(h, d) => State(Resolve(s.rows, h, d, s.now).0, s.now, Told(s, ev))
    case Poll(tenant, client, h, e) => State(Exchange(s.rows, tenant, client, h, e).0, s.now, Told(s, ev))
    case Clean => s.(rows := Keeping(s.rows, (r: DeviceRow) => r.expires >= s.now))
    case Tick(to) => s.(now := to)
  }

  ghost predicate Next(s: State, s': State) {
    exists ev :: Enabled(s, ev) && s' == Apply(s, ev)
  }

  /** The k-th state of the run leads to the next. */
  ghost predicate StepAt(run: seq<State>, k: nat) {
    k + 1 < |run| && Next(run[k], run[k + 1])
  }

  ghost predicate IsRun(run: seq<State>) {
    && |run| > 0 && (exists now :: run[0] == State(map[], now, map[]))
    && forall k: nat :: k + 1 < |run| ==> StepAt(run, k)
  }

  // ----- The invariant -----

  /** The row a story leads to while its code is stored. */
  predicate RowOk(row: DeviceRow, t: Story) {
    && row.tenant == t.created.tenant && row.client == t.created.client && row.scope == t.created.scope
    && row.interval == t.created.interval && row.expires == t.created.expires
    && t.grants == []
    && row.lastPolled == (if t.polls == [] then None else Some(t.polls[|t.polls| - 1]))
    && match row.status
       case Pending => t.decisions == []
       case Denied => |t.decisions| == 1 && t.decisions[0].0.Deny?
       case Approved =>
         && |t.decisions| == 1 && t.decisions[0].0.Approve? && row.user == Some(t.decisions[0].0.user)
         && row.amr == t.decisions[0].0.amr && row.authTime == Some(t.decisions[0].1)
  }

  /** At most one decision, before expiry; polls in order; at most one grant, and that one earned. */
  predicate StoryOk(t: Story, now: Time) {
    && |t.decisions| <= 1 && |t.grants| <= 1
    && (t.decisions != [] ==> t.decisions[0].1 < t.created.expires)
    && (forall i, j :: 0 <= i < j < |t.polls| ==> t.polls[i] <= t.polls[j])
    && (forall i :: 0 <= i < |t.polls| ==> t.polls[i] <= now)
    && (t.grants != [] ==> Earned(t, t.grants[0]))
  }

  /** The grant goes to the code's own client, for the user who approved it and the way that user logged in,
      with the scope asked for, no sooner than the interval after any poll, and before the code expired. */
  predicate Earned(t: Story, g: Granted) {
    && |t.decisions| == 1 && t.decisions[0].0.Approve? && t.decisions[0].1 < t.created.expires
    && g.grant == Grant(t.created.client, t.decisions[0].0.user, t.created.scope,
                        Some(t.decisions[0].1), t.decisions[0].0.amr)
    && g.at < t.created.expires
    && (forall i :: 0 <= i < |t.polls| ==> g.at >= t.polls[i] + t.created.interval)
  }

  ghost predicate CodeOk(s: State, h: Hash) {
    && (h in s.past ==> StoryOk(s.past[h], s.now))
    && (h in s.rows ==> h in s.past && RowOk(s.rows[h], s.past[h]))
  }

  ghost predicate Inv(s: State) {
    forall h :: CodeOk(s, h)
  }

  lemma DecideKeepsCode(s: State, h: Hash, d: Decision)
    requires CodeOk(s, h) && h in s.rows
    ensures CodeOk(Apply(s, Decide(h, d)), h)
  {
  }

  lemma GrantIsEarned(s: State, tenant: Id, client: Id, h: Hash, e: Env)
    requires CodeOk(s, h) && h in s.past && e.now == s.now
    requires Exchange(s.rows, tenant, client, h, e).1.Ok?
    ensures Earned(s.past[h], Granted(Exchange(s.rows, tenant, client, h, e).1.value, s.now))
  {
  }

  lemma PollKeepsCode(s: State, tenant: Id, client: Id, h: Hash, e: Env)
    requires CodeOk(s, h) && e.now == s.now
    ensures CodeOk(Apply(s, Poll(tenant, client, h, e)), h)
  {
    if h in s.past && Exchange(s.rows, tenant, client, h, e).1.Ok? {
      GrantIsEarned(s, tenant, client, h, e);
    }
  }

  lemma OthersKeepCode(s: State, ev: Event, h: Hash)
    requires CodeOk(s, h) && Enabled(s, ev)
    requires ev.Decide? || ev.Poll? ==> ev.h != h
    ensures CodeOk(Apply(s, ev), h)
  {
  }

  lemma EventKeepsInv(s: State, ev: Event)
    requires Inv(s) && Enabled(s, ev)
    ensures Inv(Apply(s, ev))
  {
    forall h ensures CodeOk(Apply(s, ev), h) {
      assert CodeOk(s, h);
      if ev.Decide? && ev.h == h {
        DecideKeepsCode(s, h, ev.d);
      } else if ev.Poll? && ev.h == h {
        PollKeepsCode(s, ev.tenant, ev.client, h, ev.e);
      } else {
        OthersKeepCode(s, ev, h);
      }
    }
  }

  lemma {:induction false} RunInv(run: seq<State>, k: nat)
    requires IsRun(run) && k < |run|
    ensures Inv(run[k])
  {
    if k > 0 {
      RunInv(run, k - 1);
      assert StepAt(run, k - 1);
      var ev :| Enabled(run[k - 1], ev) && run[k] == Apply(run[k - 1], ev);
      EventKeepsInv(run[k - 1], ev);
    }
  }

  /**
   * Over every run a device code is decided at most once and yields tokens at most once: only to its own
   * client, only after an approval made before it expired and so never after a denial, for the approving
   * user, and no sooner than the interval after any recorded poll (section 3.5 of RFC 8628).
   */
  lemma DeviceCodeIsSafe(run: seq<State>, k: nat, h: Hash)
    requires IsRun(run) && k < |run| && h in run[k].past
    ensures var t := run[k].past[h];
      |t.decisions| <= 1 && |t.grants| <= 1 && forall g :: g in t.grants ==> Earned(t, g)
    ensures run[k].past[h].grants != [] ==> h !in run[k].rows
  {
    RunInv(run, k);
    assert CodeOk(run[k], h);
  }

  /** Once tokens were issued, or the row is gone, no later exchange of the code succeeds. */
  lemma SpentCodeIsRefused(run: seq<State>, k: nat, tenant: Id, client: Id, h: Hash, e: Env)
    requires IsRun(run) && k < |run| && h in run[k].past && run[k].past[h].grants != []
    ensures Exchange(run[k].rows, tenant, client, h, e) == (run[k].rows, Err(InvalidGrant))
  {
    DeviceCodeIsSafe(run, k, h);
  }

  // ----- What a poll is told -----

  /** The code was created for this tenant and client and is still stored. */
  predicate Mine(s: State, tenant: Id, client: Id, h: Hash) {
    && h in s.past && h in s.rows
    && s.past[h].created.tenant == tenant && s.past[h].created.client == client
  }

  /** The last recorded poll is less than the interval ago. */
  predicate TooSoon(s: State, h: Hash)
    requires h in s.past
  {
    var t := s.past[h];
    t.polls != [] && s.now < t.polls[|t.polls| - 1] + t.created.interval
  }

  predicate ApprovedBy(t: Story, user: Id, amr: seq<string>, at: Time) {
    t.decisions == [(Approve(user, amr), at)]
  }

  predicate WasDenied(t: Story) {
    |t.decisions| == 1 && t.decisions[0].0.Deny?
  }

  /**
   * Over every run a poll yields tokens exactly for a stored code of the client that was approved, before it
   * expires and no sooner than the interval after the last recorded poll, unless the delete or the issue errs;
   * they are the approving user's, and the code is gone.
   */
  lemma ApprovedCodeYieldsTokens(run: seq<State>, k: nat, tenant: Id, client: Id, h: Hash, e: Env)
    requires IsRun(run) && k < |run| && h in run[k].past && e.now == run[k].now
    ensures var s, t := run[k], run[k].past[h];
      var (rows, r) := Exchange(s.rows, tenant, client, h, e);
      && (r.Ok? <==>
            && Mine(s, tenant, client, h) && s.now < t.created.expires && !TooSoon(s, h)
            && (exists user, amr, at :: ApprovedBy(t, user, amr, at)) && !e.deleteFails && !e.issueFails)
      && (r.Ok? ==>
            && rows == s.rows - {h}
            && forall user, amr, at :: ApprovedBy(t, user, amr, at) ==>
                 r.value == Grant(client, user, t.created.scope, Some(at), amr))
  {
    RunInv(run, k);
    assert CodeOk(run[k], h);
    var t := run[k].past[h];
    if h in run[k].rows && run[k].rows[h].status.Approved? {
      assert ApprovedBy(t, t.decisions[0].0.user, t.decisions[0].0.amr, t.decisions[0].1);
    }
  }

  /**
   * What every other poll of a stored code of the client is told: that it expired, to slow down, that the user
   * denied it, or to wait (section 3.5 of RFC 8628). Expired and denied codes are removed; every other poll is
   * recorded.
   */
  lemma PollIsAnswered(run: seq<State>, k: nat, tenant: Id, client: Id, h: Hash, e: Env)
    requires IsRun(run) && k < |run| && Mine(run[k], tenant, client, h) && e.now == run[k].now
    ensures var s, t := run[k], run[k].past[h];
      var (rows, r) := Exchange(s.rows, tenant, client, h, e);
      && (r == Err(ExpiredCode) <==> s.now >= t.created.expires)
      && (r == Err(SlowDown) <==> s.now < t.created.expires && TooSoon(s, h))
      && (r == Err(AccessDenied) <==> s.now < t.created.expires && !TooSoon(s, h) && WasDenied(t))
      && (r == Err(AuthorizationPending) <==> s.now < t.created.expires && !TooSoon(s, h) && t.decisions == [])
      && (r == Err(ExpiredCode) || r == Err(AccessDenied) ==> (h in rows <==> e.deleteFails))
      && (r == Err(SlowDown) || r == Err(AuthorizationPending) ==>
            h in rows && (!e.updateFails ==> rows[h].lastPolled == Some(s.now)))
      && (forall x :: x != h ==> (x in rows <==> x in s.rows) && (x in rows ==> rows[x] == s.rows[x]))
  {
    RunInv(run, k);
    assert CodeOk(run[k], h);
  }

  /** A poll by another client or in another tenant, or of a code that is not stored, is told nothing and changes
      nothing. */
  lemma StrangersLearnNothing(run: seq<State>, k: nat, tenant: Id, client: Id, h: Hash, e: Env)
    requires IsRun(run) && k < |run| && h in run[k].past && !Mine(run[k], tenant, client, h)
    ensures Exchange(run[k].rows, tenant, client, h, e) == (run[k].rows, Err(InvalidGrant))
  {
    RunInv(run, k);
    assert CodeOk(run[k], h);
  }

  /** A decision is taken exactly while the code is undecided and unexpired; it then holds the user's answer. */
  lemma DecisionIsTaken(run: seq<State>, k: nat, h: Hash, d: Decision)
    requires IsRun(run) && k < |run| && h in run[k].past && h in run[k].rows
    ensures var s, t := run[k], run[k].past[h];
      var (rows, err) := Resolve(s.rows, h, d, s.now);
      && (err.None? <==> t.decisions == [] && s.now < t.created.expires)
      && (err == Some(ExpiredCode) <==> s.now >= t.created.expires)
      && (err.Some? ==> rows == s.rows)
      && (err.None? ==>
            && h in rows && rows == s.rows[h := rows[h]]
            && (d.Deny? ==> rows[h].status == Denied)
            && (d.Approve? ==>
                  && rows[h].status == Approved && rows[h].user == Some(d.user) && rows[h].amr == d.amr
                  && rows[h].authTime == Some(s.now)))
  {
    RunInv(run, k);
    assert CodeOk(run[k], h);
  }
}
