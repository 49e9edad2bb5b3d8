/** What holds in every state of every run of TokenMachine, whatever calls run concurrently. */
module TokenTheorems {
  import opened Common
  import opened Scopes
  import opened TokenTables
  import opened TokenCalls
  import opened TokenMachine
  import opened TokenProofs
  import opened TokenProofsIssue
  import opened TokenProofsSteps
  import opened TokenProofsRuns

  // ----- What an event cannot undo -----

  predicate MarksGrow(a: Marks, b: Marks) {
    a.condemned <= b.condemned && a.sealed <= b.sealed && a.wiped <= b.wiped && a.slipped <= b.slipped
  }

  ghost predicate Remembers(s: State, s': State) {
    && MarksGrow(s.past.marks, s'.past.marks)
    && (forall f :: f in s.past.consumed ==> f in s'.past.consumed && s'.past.consumed[f] == s.past.consumed[f])
    && (forall f :: f in s.past.origins ==> f in s'.past.origins && s'.past.origins[f] == s.past.origins[f])
    && (forall i :: IsDone(s, i) ==> i in s'.calls && s'.calls[i] == s.calls[i])
  }

  lemma RecordRemembers(s: State, id: CallId, effect: Effect, pc: Pc)
    requires id in s.calls
    requires effect.UseCode? && effect.code in s.db.codes ==> s.db.codes[effect.code].family !in s.past.consumed
    ensures var past := Record(s, id, effect, pc);
      && MarksGrow(s.past.marks, past.marks) && past.origins == s.past.origins
      && forall f :: f in s.past.consumed ==> f in past.consumed && past.consumed[f] == s.past.consumed[f]
  {
  }

  lemma StepUsesFreshCode(s: State, id: CallId, e: Env)
    requires RowsKnown(s) && Enabled(s, Step(id, e))
    ensures var effect := Decision(s, id, e).0;
      effect.UseCode? && effect.code in s.db.codes ==> s.db.codes[effect.code].family !in s.past.consumed
  {
  }

  lemma StepRemembers(s: State, id: CallId, e: Env)
    requires RowsKnown(s) && Enabled(s, Step(id, e))
    ensures Remembers(s, Apply(s, Step(id, e)))
  {
    StepUsesFreshCode(s, id, e);
    var (effect, pc) := Decision(s, id, e);
    RecordRemembers(s, id, effect, pc);
  }

  lemma EventRemembers(s: State, ev: Event)
    requires Inv(s) && Enabled(s, ev)
    ensures Remembers(s, Apply(s, ev))
  {
    assert Holds(s, Rows);
    if ev.Step? {
      StepRemembers(s, ev.id, ev.env);
    }
  }

  lemma {:induction false} RunRemembers(run: seq<State>, k: nat, n: nat)
    requires IsRun(run) && k <= n < |run|
    ensures Remembers(run[k], run[n])
  {
    if k < n {
      RunRemembers(run, k, n - 1);
      RunInv(run, n - 1);
      assert StepAt(run, n - 1);
      var ev :| Enabled(run[n - 1], ev) && run[n] == Apply(run[n - 1], ev);
      EventRemembers(run[n - 1], ev);
    }
  }

  // ----- Revocation is final -----

  /** The only rows left of f were stored by calls that ended in a server error; no call returned them. */
  ghost predicate OnlyOrphansLeft(s: State, f: Family) {
    && (forall h :: h in s.db.refresh && s.db.refresh[h].family == f ==>
          h in s.past.refresh && WasFailed(s, s.past.refresh[h].owner) && !RefreshReturned(s, h))
    && (forall h :: h in s.db.access && s.db.access[h].family == f ==>
          h in s.past.access && WasFailed(s, s.past.access[h].owner) && !AccessReturned(s, h))
  }

  /** No row of f is a token that a call returned. */
  ghost predicate NoReturnedToken(s: State, f: Family) {
    && (forall h :: h in s.db.refresh && s.db.refresh[h].family == f ==> !RefreshReturned(s, h))
    && (forall h :: h in s.db.access && s.db.access[h].family == f ==> !AccessReturned(s, h))
  }

  lemma SealedFamilyIsGone(s: State, f: Family)
    requires CondemnedOk(s) && SealsOk(s) && Quiescent(s) && f in s.past.marks.condemned
    requires f !in s.past.marks.slipped
    ensures OnlyOrphansLeft(s, f)
  {
  }

  lemma WipedFamilyIsDead(s: State, f: Family)
    requires SealsOk(s) && CondemnedOk(s) && f in s.past.marks.wiped
    ensures NoReturnedToken(s, f)
  {
    assert SealHolds(s, f);
  }

  /**
   * Revocation is final, however calls are interleaved (section 4.14.2 of RFC 9700). Once the two deletes of
   * a family both took effect, the refresh rows first and with its exchange over, no later state holds a token
   * of it that any call returned, or will return, whether or not deletes of other calls err. And once a family
   * is condemned and none of its deletes erred, every later state without a call in flight holds no row of it
   * but those that a call which ended in a server error left behind.
   */
  lemma RevocationIsFinal(run: seq<State>, k: nat, n: nat, f: Family)
    requires IsRun(run) && k <= n < |run|
    ensures f in run[k].past.marks.wiped ==> NoReturnedToken(run[n], f)
    ensures var gone := f in run[k].past.marks.condemned && Quiescent(run[n]) && f !in run[n].past.marks.slipped;
      && (gone ==> OnlyOrphansLeft(run[n], f))
      && (gone && (forall i :: i in run[n].calls ==> run[n].calls[i].pc != Done(Refused(ServerError))) ==>
            (forall h :: h in run[n].db.refresh ==> run[n].db.refresh[h].family != f) &&
            (forall h :: h in run[n].db.access ==> run[n].db.access[h].family != f))
  {
    RunRemembers(run, k, n);
    RunInv(run, n);
    assert Holds(run[n], Seals) && Holds(run[n], Condemnations);
    if f in run[k].past.marks.wiped {
      WipedFamilyIsDead(run[n], f);
    }
    if f in run[k].past.marks.condemned && Quiescent(run[n]) && f !in run[n].past.marks.slipped {
      SealedFamilyIsGone(run[n], f);
    }
  }

  lemma RootedFamilyIsOver(s: State, h: Hash)
    requires Inv(s) && h in s.past.refresh
    ensures NoExchangePending(s, s.past.refresh[h].row.family)
  {
    assert Holds(s, Chains);
  }

  lemma DetectionMarks(s: State, id: CallId, e: Env, f: Family)
    requires Enabled(s, Step(id, e)) && Decision(s, id, e) == (Nothing, DelRefresh(f))
    ensures f in Apply(s, Step(id, e)).past.marks.condemned <==> f in s.past.marks.condemned || NoExchangePending(s, f)
  {
    StepCondemns(s, id, e, f);
  }

  /** A call decides to delete a family without touching a row. */
  lemma DetectionOnlyReads(s: State, id: CallId, e: Env, f: Family)
    requires Enabled(s, Step(id, e)) && Decision(s, id, e).1 == DelRefresh(f)
    ensures Decision(s, id, e).0 == Nothing
  {
  }

  /** What such a call knows: the row of a refresh or access token of the family, or its own grant. */
  lemma DetectorSawToken(s: State, id: CallId, e: Env, f: Family)
    requires RowsKnown(s) && Enabled(s, Step(id, e)) && CallOk(s, id, s.calls[id])
    requires Decision(s, id, e).1 == DelRefresh(f) && !s.calls[id].req.Exchange?
    ensures exists h :: h in s.past.refresh && s.past.refresh[h].row.family == f
  {
  }

  /**
   * Every call that finds a rotated refresh token presented again, loses the race for one, misses its claimed
   * row or revokes one explicitly condemns its family. A replayed authorization code condemns the family unless
   * the exchange that consumed the code is still storing its tokens.
   */
  lemma DetectionCondemns(s: State, id: CallId, e: Env, f: Family)
    requires Inv(s) && Enabled(s, Step(id, e)) && Decision(s, id, e).1 == DelRefresh(f)
    ensures f in Apply(s, Step(id, e)).past.marks.condemned <==> f in s.past.marks.condemned || NoExchangePending(s, f)
    ensures !s.calls[id].req.Exchange? ==> NoExchangePending(s, f) && f in Apply(s, Step(id, e)).past.marks.condemned
  {
    DetectionOnlyReads(s, id, e, f);
    DetectionMarks(s, id, e, f);
    if !s.calls[id].req.Exchange? {
      CallHolds(s, id);
      assert Holds(s, Rows);
      DetectorSawToken(s, id, e, f);
      var h :| h in s.past.refresh && s.past.refresh[h].row.family == f;
      RootedFamilyIsOver(s, h);
    }
  }

  /** The presented token is stored in the tenant and was not claimed yet. */
  ghost predicate Unclaimed(s: State, req: Request)
    requires req.Refresh?
  {
    var h := Sha256(req.token);
    h in s.db.refresh && s.db.refresh[h].family.tenant == req.tenant && !s.db.refresh[h].revoked
  }

  /** The call goes on to delete the family, and condemns it. */
  ghost predicate Revokes(s: State, id: CallId, e: Env, f: Family) {
    && Enabled(s, Step(id, e))
    && var s' := Apply(s, Step(id, e));
    && s'.db == s.db && s'.calls[id].pc == DelRefresh(f) && f in s'.past.marks.condemned
  }

  /** A refresh token that was rotated before and is presented again: the call revokes the family (section 4.14.2
      of RFC 9700). */
  lemma ReuseIsDetected(s: State, id: CallId, e: Env)
    requires Inv(s) && Enabled(s, Step(id, e)) && s.calls[id].pc.RefreshRead? && !e.fails
    requires var h := Sha256(s.calls[id].req.token);
      h in s.db.refresh && s.db.refresh[h].family.tenant == s.calls[id].req.tenant && s.db.refresh[h].revoked
    ensures Revokes(s, id, e, s.db.refresh[Sha256(s.calls[id].req.token)].family)
  {
    DetectionCondemns(s, id, e, s.db.refresh[Sha256(s.calls[id].req.token)].family);
  }

  /** The call that loses the race for a token revokes the family, and only that call does. */
  lemma LostRaceIsDetected(s: State, id: CallId, e: Env)
    requires Inv(s) && Enabled(s, Step(id, e)) && s.calls[id].pc.RefreshClaim? && !e.fails
    ensures Revokes(s, id, e, s.calls[id].pc.row.family) <==> !Unclaimed(s, s.calls[id].req)
    ensures Unclaimed(s, s.calls[id].req) ==>
      var h := Sha256(s.calls[id].req.token);
      Apply(s, Step(id, e)).db == s.db.(refresh := s.db.refresh[h := s.db.refresh[h].(revoked := true)])
  {
    if !Unclaimed(s, s.calls[id].req) {
      DetectionCondemns(s, id, e, s.calls[id].pc.row.family);
    }
  }

  /** A rotation whose claimed row is gone when it looks again revokes the family, its new tokens included, and
      only such a rotation does. */
  lemma MissedRowIsDetected(s: State, id: CallId, e: Env)
    requires Inv(s) && Enabled(s, Step(id, e)) && s.calls[id].pc.ReRead? && !e.fails
    ensures Sha256(s.calls[id].req.token) !in s.db.refresh ==> Revokes(s, id, e, s.calls[id].pc.g.family)
    ensures Sha256(s.calls[id].req.token) in s.db.refresh ==> WasGranted(Apply(s, Step(id, e)), id)
  {
    CallHolds(s, id);
    if Sha256(s.calls[id].req.token) !in s.db.refresh {
      DetectionCondemns(s, id, e, s.calls[id].pc.g.family);
    } else {
      assert Holds(s, Rows);
    }
  }

  // ----- What a granted refresh presented -----

  /** The call has read its token and was not refused since; scope is what it will be granted. */
  ghost predicate Accepted(c: Call, scope: string) {
    match c.pc
    case RefreshClaim(_, x) => x == scope
    case StoreAccess(g) => g.scope == scope
    case StoreRefresh(g, _) => g.scope == scope
    case SignId(g, _, _) => g.scope == scope
    case ReRead(g, _, _) => g.scope == scope
    case Done(Granted(_, _, x)) => x == scope
    case _ => false
  }

  /** In this state the presented token was stored, live and the client's, and allowed the scope. */
  ghost predicate Presents(s: State, req: Request, scope: string) {
    && req.Refresh?
    && var h := Sha256(req.token);
    && h in s.db.refresh
    && var row := s.db.refresh[h];
    && row.family.tenant == req.tenant && row.client == req.client && !row.revoked && s.now < row.expires
    && scope == (if req.scope == "" then row.scope else req.scope) && ScopeSet(scope) <= ScopeSet(row.scope)
  }

  lemma AcceptedAtRead(s: State, id: CallId, e: Env, scope: string)
    requires Enabled(s, Step(id, e)) && s.calls[id].req.Refresh? && Accepted(Apply(s, Step(id, e)).calls[id], scope)
    ensures Accepted(s.calls[id], scope) || Presents(s, s.calls[id].req, scope)
  {
  }

  lemma AcceptedBefore(s: State, s': State, id: CallId, scope: string)
    requires Next(s, s') && id in s'.calls && s'.calls[id].req.Refresh? && Accepted(s'.calls[id], scope)
    ensures id in s.calls && s.calls[id].req == s'.calls[id].req
    ensures Accepted(s.calls[id], scope) || Presents(s, s.calls[id].req, scope)
  {
    var ev :| Enabled(s, ev) && s' == Apply(s, ev);
    if ev.Step? && ev.id == id {
      AcceptedAtRead(s, id, ev.env, scope);
    }
  }

  /**
   * A refresh that is answered with tokens presented, in some earlier state m, a token that was then stored for
   * its tenant and client, neither rotated nor expired, and whose scope covers what was granted: the scope asked
   * for, or the whole of it.
   */
  lemma {:induction false} GrantedRefreshPresentedALiveToken(run: seq<State>, k: nat, id: CallId, scope: string)
    returns (m: nat)
    requires IsRun(run) && k < |run| && id in run[k].calls && run[k].calls[id].req.Refresh?
    requires Accepted(run[k].calls[id], scope)
    ensures m < k && Presents(run[m], run[k].calls[id].req, scope)
  {
    assert StepAt(run, k - 1);
    AcceptedBefore(run[k - 1], run[k], id, scope);
    m := k - 1;
    if !Presents(run[k - 1], run[k].calls[id].req, scope) {
      m := GrantedRefreshPresentedALiveToken(run, k - 1, id, scope);
    }
  }

  // ----- Gone for good -----

  ghost predicate Gone(s: State, h: Hash) {
    (h in s.past.refresh || h in s.past.access) && h !in s.db.refresh && h !in s.db.access
  }

  lemma StatementAdds(db: Db, effect: Effect, h: Hash)
    requires h !in db.refresh && h !in db.access
    ensures h in Perform(db, effect).refresh ==> effect.AddRefresh? && effect.h == h
    ensures h in Perform(db, effect).access ==> effect.AddAccess? && effect.h == h
  {
  }

  lemma StepKeepsGone(s: State, id: CallId, e: Env, h: Hash)
    requires Enabled(s, Step(id, e)) && Gone(s, h)
    ensures Gone(Apply(s, Step(id, e)), h)
  {
    var (effect, pc) := Decision(s, id, e);
    StatementAdds(s.db, effect, h);
  }

  /** Nothing but a step of a call adds a token. */
  lemma OthersAddNothing(s: State, ev: Event)
    requires Enabled(s, ev) && !ev.Step?
    ensures var s' := Apply(s, ev);
      && s'.past.refresh == s.past.refresh && s'.past.access == s.past.access
      && s'.db.refresh.Keys <= s.db.refresh.Keys && s'.db.access.Keys <= s.db.access.Keys
  {
  }

  lemma NextKeepsGone(s: State, s': State, h: Hash)
    requires Next(s, s') && Gone(s, h)
    ensures Gone(s', h)
  {
    var ev :| Enabled(s, ev) && s' == Apply(s, ev);
    if ev.Step? {
      StepKeepsGone(s, ev.id, ev.env, h);
    } else {
      OthersAddNothing(s, ev);
      assert h !in s'.db.refresh.Keys && h !in s'.db.access.Keys;
    }
  }

  lemma RunKeepsGone(run: seq<State>, n: nat, h: Hash)
    requires IsRun(run) && n < |run| - 1 && Gone(run[n], h)
    ensures Gone(run[n + 1], h)
  {
    assert StepAt(run, n);
    NextKeepsGone(run[n], run[n + 1], h);
  }

  /** A token that was deleted never comes back. */
  lemma {:induction false} GoneTokensStayGone(run: seq<State>, k: nat, n: nat, h: Hash)
    requires IsRun(run) && k <= n < |run| && Gone(run[k], h)
    ensures Gone(run[n], h)
    decreases n - k
  {
    if k < n {
      RunKeepsGone(run, k, h);
      GoneTokensStayGone(run, k + 1, n, h);
    }
  }

  // ----- No forked chains -----

  /** Who can issue the next tokens of a family. */
  datatype Head = CodeHead(code: string) | RowHead(h: Hash) | CallHead(id: CallId)

  ghost function Heads(s: State, f: Family): set<Head> {
    (set c | c in s.db.codes && !s.db.codes[c].used && s.db.codes[c].family == f :: CodeHead(c))
    + (set h | h in s.db.refresh && !s.db.refresh[h].revoked && s.db.refresh[h].family == f :: RowHead(h))
    + (set i | i in s.calls && Storing(s.calls[i].pc, f) :: CallHead(i))
  }

  ghost function HeadOf(tip: Tip, code: string): Head {
    match tip
    case ByCode => CodeHead(code)
    case ByRow(h) => RowHead(h)
    case ByCall(i) => CallHead(i)
  }

  lemma HeadsAreTheTip(s: State, f: Family, x: Head)
    requires RowsKnown(s) && CallsOk(s) && TipsOk(s) && x in Heads(s, f)
    ensures f in s.past.tips && f in s.past.origins && x == HeadOf(s.past.tips[f], s.past.origins[f].code)
  {
    match x
    case CodeHead(c) => assert TipIs(s, f, ByCode);
    case RowHead(h) => assert TipIs(s, f, ByRow(h));
    case CallHead(i) => assert CallOk(s, i, s.calls[i]);
  }

  /**
   * In every state an unused code, the unrevoked refresh tokens and the calls that claimed a token or
   * consumed the code without having stored the successor number at most one per family.
   */
  lemma NoForkedChain(run: seq<State>, k: nat, f: Family)
    requires IsRun(run) && k < |run|
    ensures |Heads(run[k], f)| <= 1
  {
    var s := run[k];
    RunInv(run, k);
    assert Holds(s, Rows) && Holds(s, Calls) && Holds(s, Tips);
    if x :| x in Heads(s, f) {
      HeadsAreTheTip(s, f, x);
      forall y | y in Heads(s, f) ensures y == x {
        HeadsAreTheTip(s, f, y);
      }
      assert Heads(s, f) == {x};
    }
  }

  /** Of all calls that present one refresh token, however concurrent, at most one is answered with tokens. */
  lemma OneSuccessor(run: seq<State>, k: nat, i: CallId, j: CallId)
    requires IsRun(run) && k < |run|
    requires WasGranted(run[k], i) && WasGranted(run[k], j)
    requires run[k].calls[i].req.Refresh? && run[k].calls[j].req.Refresh?
    requires run[k].calls[i].req.token == run[k].calls[j].req.token
    ensures i == j
  {
    var s := run[k];
    RunInv(run, k);
    CallHolds(s, i);
    CallHolds(s, j);
    assert Holds(s, Refreshes) && Holds(s, Chains);
    assert Siblings(s, s.calls[i].pc.outcome.refresh, s.calls[j].pc.outcome.refresh);
  }

  // ----- Grant provenance -----

  /**
   * Every refresh token ever stored keeps the tenant, client, user, login time and methods of the code
   * its family started from, and its scope lies within its predecessor's and the code's.
   */
  lemma RefreshTokensKeepTheirGrant(run: seq<State>, k: nat, h: Hash)
    requires IsRun(run) && k < |run| && h in run[k].db.refresh
    ensures var s, row := run[k], run[k].db.refresh[h];
      && row.family in s.past.origins && h in s.past.refresh
      && var o := s.past.origins[row.family];
      && row.family == o.family && row.client == o.client && row.user == o.user
      && row.authTime == o.authTime && row.amr == o.amr && ScopeSet(row.scope) <= ScopeSet(o.scope)
  {
    RunInv(run, k);
    assert Holds(run[k], Rows) && Holds(run[k], Refreshes);
  }

  lemma AccessTokensKeepTheirGrant(run: seq<State>, k: nat, h: Hash)
    requires IsRun(run) && k < |run| && h in run[k].db.access
    ensures var s, row := run[k], run[k].db.access[h];
      && row.family in s.past.origins
      && var o := s.past.origins[row.family];
      && row.family == o.family && row.client == o.client && row.user == o.user
      && ScopeSet(row.scope) <= ScopeSet(o.scope)
  {
    RunInv(run, k);
    assert Holds(run[k], Rows) && Holds(run[k], Accesses);
  }

  /** h was reached from a by n rotations. */
  ghost predicate Descends(s: State, h: Hash, a: Hash, n: nat)
    decreases n
  {
    if n == 0 then h == a && h in s.past.refresh
    else h in s.past.refresh && s.past.refresh[h].parent.Some? && Descends(s, s.past.refresh[h].parent.value, a, n - 1)
  }

  /** Along any number of rotations the scope only shrinks and the family stays. */
  lemma {:induction false} RotationsOnlyNarrow(s: State, h: Hash, a: Hash, n: nat)
    requires RefreshProvenance(s) && Descends(s, h, a, n)
    ensures a in s.past.refresh && h in s.past.refresh
    ensures ScopeSet(s.past.refresh[h].row.scope) <= ScopeSet(s.past.refresh[a].row.scope)
    ensures s.past.refresh[h].row.family == s.past.refresh[a].row.family
    decreases n
  {
    if n > 0 {
      RotationsOnlyNarrow(s, s.past.refresh[h].parent.value, a, n - 1);
    }
  }

  lemma ReachableRotationsOnlyNarrow(run: seq<State>, k: nat, h: Hash, a: Hash, n: nat)
    requires IsRun(run) && k < |run| && Descends(run[k], h, a, n)
    ensures a in run[k].past.refresh && h in run[k].past.refresh
    ensures ScopeSet(run[k].past.refresh[h].row.scope) <= ScopeSet(run[k].past.refresh[a].row.scope)
  {
    RunInv(run, k);
    assert Holds(run[k], Refreshes);
    RotationsOnlyNarrow(run[k], h, a, n);
  }

  // ----- Authorization codes -----

  /** An exchange that was answered with tokens presented a code of its tenant, client, redirect URI and
      verifier, and the code was unexpired when it was consumed. */
  lemma GrantedExchangeMetEveryCheck(run: seq<State>, k: nat, i: CallId) returns (f: Family)
    requires IsRun(run) && k < |run| && WasGranted(run[k], i) && run[k].calls[i].req.Exchange?
    ensures var s := run[k];
      && f in s.past.consumed && s.past.consumed[f].owner == i
      && GrantedFor(s, f, s.calls[i].req, s.calls[i].pc.outcome.refresh)
    ensures var o, req := run[k].past.origins[f], run[k].calls[i].req;
      && o.family == f && f.tenant == req.tenant && o.code == req.code && o.client == req.client
      && o.redirectUri == req.redirectUri && run[k].past.consumed[f].at < o.expires
      && (o.challenge != Absent ==>
            req.verifier != "" && o.challengeMethod == "S256" && o.challenge == Digest(Sha256(req.verifier)))
  {
    RunInv(run, k);
    assert Holds(run[k], Rows);
    CallHolds(run[k], i);
    f :| f in run[k].past.consumed && run[k].past.consumed[f].owner == i
      && GrantedFor(run[k], f, run[k].calls[i].req, run[k].calls[i].pc.outcome.refresh);
  }

  /** Of all exchanges of one code, at most one is ever answered with tokens (section 4.1.2 of RFC 6749). */
  lemma CodeGrantsOnce(run: seq<State>, k: nat, i: CallId, j: CallId)
    requires IsRun(run) && k < |run|
    requires WasGranted(run[k], i) && run[k].calls[i].req.Exchange?
    requires WasGranted(run[k], j) && run[k].calls[j].req.Exchange?
    requires run[k].calls[i].req.code == run[k].calls[j].req.code
    ensures i == j
  {
    var f := GrantedExchangeMetEveryCheck(run, k, i);
    var g := GrantedExchangeMetEveryCheck(run, k, j);
    RunInv(run, k);
    assert Holds(run[k], Rows);
  }

  /** A code whose consumer was refused is unusable forever. */
  lemma FailedExchangeSpendsCode(run: seq<State>, k: nat, n: nat, f: Family, j: CallId)
    requires IsRun(run) && k <= n < |run| && f in run[k].past.consumed && f in run[k].past.origins
    requires IsDone(run[k], run[k].past.consumed[f].owner) && !WasGranted(run[k], run[k].past.consumed[f].owner)
    requires WasGranted(run[n], j) && run[n].calls[j].req.Exchange?
    ensures run[n].calls[j].req.code != run[k].past.origins[f].code
  {
    RunRemembers(run, k, n);
    var g := GrantedExchangeMetEveryCheck(run, n, j);
    RunInv(run, n);
    assert Holds(run[n], Rows);
  }

  lemma ExchangersConsumed(s: State, f: Family, i: CallId)
    requires CallsOk(s) && i in s.calls && Exchanging(s.calls[i].pc, f)
    ensures f in s.past.consumed && s.past.consumed[f].owner == i
  {
  }

  /**
   * A replay of a code whose exchange has returned, and whose used row is still stored, starts to delete
   * the family and condemns it, so RevocationIsFinal applies.
   */
  lemma LateReplayCondemns(s: State, id: CallId, e: Env, f: Family, code: CodeRow)
    requires Inv(s) && Enabled(s, Step(id, e)) && s.calls[id].pc.CodeRead? && !e.fails
    requires FindCode(s.db.codes, s.calls[id].req.tenant, s.calls[id].req.code) == Some(code) && code.family == f
    requires f in s.past.consumed && IsDone(s, s.past.consumed[f].owner)
    ensures Apply(s, Step(id, e)).calls[id].pc == DelRefresh(f)
    ensures f in Apply(s, Step(id, e)).past.marks.condemned
  {
    assert Holds(s, Calls);
    forall i | i in s.calls ensures !Exchanging(s.calls[i].pc, f) {
      if Exchanging(s.calls[i].pc, f) {
        ExchangersConsumed(s, f, i);
      }
    }
    DetectionCondemns(s, id, e, f);
  }
}
