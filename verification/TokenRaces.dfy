/**
 * What a revocation achieves over all continuations of a state: a call that starts to delete a family, and whose
 * two deletes take effect, leaves no returned token of it behind, unless the exchange that consumed the
 * family's code was still storing its tokens.
 */
module TokenRaces {
  import opened Common
  import opened Scopes
  import opened TokenTables
  import opened TokenCalls
  import opened TokenMachine
  import opened TokenProofs
  import opened TokenProofsIssue
  import opened TokenProofsSteps
  import opened TokenProofsRuns
  import opened TokenTheorems

  // ----- Continuations -----

  ghost predicate Leads(s: State, events: seq<Event>, t: State)
    decreases |events|
  {
    if events == [] then s == t else Enabled(s, events[0]) && Leads(Apply(s, events[0]), events[1..], t)
  }

  lemma LeadsOne(s: State, ev: Event)
    requires Enabled(s, ev)
    ensures Leads(s, [ev], Apply(s, ev))
  {
  }

  lemma {:induction false} LeadsOn(s: State, events: seq<Event>, t: State, more: seq<Event>, u: State)
    requires Leads(s, events, t) && Leads(t, more, u)
    ensures Leads(s, events + more, u)
    decreases |events|
  {
    if events == [] {
      assert events + more == more;
    } else {
      LeadsOn(Apply(s, events[0]), events[1..], t, more, u);
      assert (events + more)[1..] == events[1..] + more;
    }
  }

  lemma LeadsOneMore(s: State, events: seq<Event>, t: State, ev: Event)
    requires Leads(s, events, t) && Enabled(t, ev)
    ensures Leads(s, events + [ev], Apply(t, ev))
  {
    LeadsOne(t, ev);
    LeadsOn(s, events, t, [ev], Apply(t, ev));
  }

  /** No step of the call errs. */
  predicate NeverErrs(events: seq<Event>, id: CallId) {
    forall k :: 0 <= k < |events| && events[k].Step? && events[k].id == id ==> !events[k].env.fails
  }

  /** A token of f that some call returned is stored and can be used. */
  ghost predicate LiveRefresh(s: State, f: Family, h: Hash) {
    && h in s.db.refresh && s.db.refresh[h].family == f && !s.db.refresh[h].revoked && s.now < s.db.refresh[h].expires
    && RefreshReturned(s, h)
  }

  ghost predicate LiveAccess(s: State, f: Family, h: Hash) {
    && h in s.db.access && s.db.access[h].family == f && s.now < s.db.access[h].expires
    && AccessReturned(s, h)
  }

  ghost predicate Live(s: State, f: Family) {
    (exists h :: LiveRefresh(s, f, h)) || (exists h :: LiveAccess(s, f, h))
  }

  /** Some continuation in which no statement of call id errs ends without calls in flight and with a live
      token of f. */
  ghost predicate Survives(s: State, id: CallId, f: Family) {
    exists events, t :: Leads(s, events, t) && NeverErrs(events, id) && Quiescent(t) && Live(t, f)
  }

  // ----- A call whose deletes take effect -----

  /** Call id is on its way to wipe f, or f is wiped. */
  ghost predicate Wipes(s: State, id: CallId, f: Family) {
    || f in s.past.marks.wiped
    || (id in s.calls && s.calls[id].pc == DelRefresh(f) && f in s.past.marks.condemned)
    || (id in s.calls && s.calls[id].pc == DelAccess(f) && f in s.past.marks.sealed)
  }

  lemma EventKeepsWiping(s: State, ev: Event, id: CallId, f: Family)
    requires Inv(s) && Enabled(s, ev) && Wipes(s, id, f)
    requires ev.Step? && ev.id == id ==> !ev.env.fails
    ensures Wipes(Apply(s, ev), id, f)
  {
    EventRemembers(s, ev);
    if ev.Step? && ev.id == id && f !in s.past.marks.wiped {
      if s.calls[id].pc == DelRefresh(f) {
        assert Holds(s, Condemnations);
        assert CondemnedFamilyOk(s, f);
        StepWipes(s, id, ev.env, f);
      } else {
        StepWipesAccess(s, id, ev.env, f);
      }
    }
  }

  lemma {:induction false} OwnDeletesWipe(s: State, events: seq<Event>, t: State, id: CallId, f: Family)
    requires Inv(s) && Leads(s, events, t) && NeverErrs(events, id) && Wipes(s, id, f)
    ensures Inv(t) && Wipes(t, id, f)
    decreases |events|
  {
    if events != [] {
      EventKeepsInv(s, events[0]);
      EventKeepsWiping(s, events[0], id, f);
      assert forall k :: 0 <= k < |events[1..]| ==> events[1..][k] == events[k + 1];
      OwnDeletesWipe(Apply(s, events[0]), events[1..], t, id, f);
    }
  }

  /**
   * A call that condemned a family, or found it condemned, and whose own two deletes take effect, leaves no
   * returned token of the family once it is done, whatever other calls do and whichever of their statements err.
   */
  lemma OwnDeletesAreFinal(s: State, events: seq<Event>, t: State, id: CallId, f: Family)
    requires Inv(s) && id in s.calls && s.calls[id].pc == DelRefresh(f) && f in s.past.marks.condemned
    requires Leads(s, events, t) && NeverErrs(events, id) && IsDone(t, id)
    ensures f in t.past.marks.wiped && NoReturnedToken(t, f)
  {
    OwnDeletesWipe(s, events, t, id, f);
    assert Holds(t, Seals) && Holds(t, Condemnations);
    WipedFamilyIsDead(t, f);
  }

  // ----- A delete that errs -----

  /** What the two deletes of a call that run next leave of a family: the refresh rows exactly if the first
      erred, the access rows exactly if the second did. */
  lemma ErringDeletesKeepRows(s: State, id: CallId, f: Family, e: Env, e': Env)
    requires id in s.calls && s.calls[id].pc == DelRefresh(f) && WellFormed(s.calls[id])
    requires e.now == e'.now == s.now
    ensures Enabled(s, Step(id, e)) && Enabled(Apply(s, Step(id, e)), Step(id, e'))
    ensures var t := Apply(Apply(s, Step(id, e)), Step(id, e'));
      && t.calls == s.calls[id := Call(s.calls[id].req, Done(Revoked(s.calls[id].req)))]
      && (forall h :: h in s.db.refresh && s.db.refresh[h].family == f ==> (h in t.db.refresh <==> e.fails))
      && (forall h :: h in s.db.access && s.db.access[h].family == f ==> (h in t.db.access <==> e'.fails))
      && t.db.refresh.Keys <= s.db.refresh.Keys && t.db.access.Keys <= s.db.access.Keys
  {
    StepWipes(s, id, e, f);
    StepWipesAccess(Apply(s, Step(id, e)), id, e', f);
  }

  // ----- Fresh tokens -----

  lemma {:induction false} Longer(hs: set<Hash>) returns (n: nat)
    ensures forall h :: h in hs ==> |h.preimage| < n
  {
    n := 0;
    if x :| x in hs {
      var m := Longer(hs - {x});
      n := if m <= |x.preimage| then |x.preimage| + 1 else m;
      assert forall h :: h in hs ==> h == x || h in hs - {x};
    }
  }

  /** Two new random tokens. */
  lemma NewTokens(s: State) returns (a: string, r: string)
    ensures a != r && Fresh(s, Sha256(a)) && Fresh(s, Sha256(r))
  {
    var hs := s.past.refresh.Keys + s.past.access.Keys + s.past.presented;
    var n := Longer(hs);
    a, r := seq(n, i => 'x'), seq(n + 1, i => 'x');
    assert Sha256(a).preimage == a && Sha256(r).preimage == r;
    assert |a| == n && |r| == n + 1;
  }

  lemma NewEnv(s: State, fails: bool) returns (e: Env)
    ensures e.now == s.now && e.fails == fails && e.clientFound
    ensures e.newAccess != e.newRefresh && e.accessTtl == e.refreshTtl == 1
    ensures Fresh(s, Sha256(e.newAccess)) && Fresh(s, Sha256(e.newRefresh))
  {
    var a, r := NewTokens(s);
    e := Env(s.now, fails, true, a, r, 1, 1);
  }

  // ----- Every call can finish -----

  /** Everything but call j is as it was, and no token was stored. */
  ghost predicate OnlyRan(s: State, t: State, j: CallId) {
    && t.now == s.now && t.calls.Keys == s.calls.Keys
    && (forall k :: k in s.calls && k != j ==> t.calls[k] == s.calls[k])
  }

  lemma OneStep(s: State, j: CallId, e: Env)
    requires j in s.calls && !s.calls[j].pc.Done? && WellFormed(s.calls[j]) && e.now == s.now
    requires Fresh(s, Sha256(e.newAccess)) && Fresh(s, Sha256(e.newRefresh))
    ensures Enabled(s, Step(j, e))
    ensures var t := Apply(s, Step(j, e));
      OnlyRan(s, t, j) && WellFormed(t.calls[j]) && Rank(t.calls[j].pc) < Rank(s.calls[j].pc)
  {
    StepStaysWellFormed(s.db, s.calls[j], e);
    StepsTerminate(s.db, s.calls[j], e);
  }

  /** A call runs to its end; its statements err, or none does. */
  lemma {:induction false} FinishCall(s: State, j: CallId, fails: bool) returns (events: seq<Event>, t: State)
    requires j in s.calls && WellFormed(s.calls[j])
    ensures Leads(s, events, t) && OnlyRan(s, t, j) && IsDone(t, j)
    ensures forall k :: 0 <= k < |events| ==> events[k].Step? && events[k].id == j && events[k].env.fails == fails
    decreases Rank(s.calls[j].pc)
  {
    if s.calls[j].pc.Done? {
      events, t := [], s;
    } else {
      var e := NewEnv(s, fails);
      OneStep(s, j, e);
      var more, end := FinishCall(Apply(s, Step(j, e)), j, fails);
      events, t := [Step(j, e)] + more, end;
      LeadsOne(s, Step(j, e));
      LeadsOn(s, [Step(j, e)], Apply(s, Step(j, e)), more, t);
    }
  }

  /** Every call but i runs to its end; no statement of call id errs. */
  lemma {:induction false} FinishOthers(s: State, i: CallId, id: CallId, left: set<CallId>)
    returns (events: seq<Event>, t: State)
    requires i in s.calls && i !in left && left <= s.calls.Keys
    requires forall k :: k in s.calls ==> WellFormed(s.calls[k]) && (k == i || k in left || s.calls[k].pc.Done?)
    ensures Leads(s, events, t) && NeverErrs(events, id)
    ensures t.now == s.now && i in t.calls && t.calls[i] == s.calls[i]
    ensures forall k :: k in t.calls && k != i ==> t.calls[k].pc.Done?
    decreases left
  {
    if j :| j in left {
      var first, mid := FinishCall(s, j, j != id);
      var more, end := FinishOthers(mid, i, id, left - {j});
      events, t := first + more, end;
      LeadsOn(s, first, mid, more, t);
    } else {
      events, t := [], s;
    }
  }

  // ----- The replay that comes too early -----

  lemma StoreAccessStep(s: State, i: CallId, e: Env)
    requires i in s.calls && s.calls[i].pc.StoreAccess? && WellFormed(s.calls[i])
    requires e.now == s.now && !e.fails && Fresh(s, Sha256(e.newAccess))
    ensures Enabled(s, Step(i, e))
    ensures var t, g := Apply(s, Step(i, e)), s.calls[i].pc.g;
      && OnlyRan(s, t, i) && t.calls[i] == Call(s.calls[i].req, StoreRefresh(g, Sha256(e.newAccess)))
      && Sha256(e.newAccess) in t.db.access && t.db.access[Sha256(e.newAccess)].family == g.family
      && t.db.access[Sha256(e.newAccess)].expires == e.now + e.accessTtl
      && Sha256(e.newAccess) in t.past.access && t.past.access[Sha256(e.newAccess)].owner == i
      && t.past.refresh == s.past.refresh && t.past.presented == s.past.presented
      && t.past.access.Keys == s.past.access.Keys + {Sha256(e.newAccess)}
  {
  }

  lemma StoreRefreshStep(s: State, i: CallId, e: Env)
    requires i in s.calls && s.calls[i].pc.StoreRefresh? && WellFormed(s.calls[i])
    requires e.now == s.now && !e.fails && Fresh(s, Sha256(e.newRefresh))
    ensures Enabled(s, Step(i, e))
    ensures var t, g, r := Apply(s, Step(i, e)), s.calls[i].pc.g, Sha256(e.newRefresh);
      && OnlyRan(s, t, i) && t.calls[i] == Call(s.calls[i].req, SignId(g, s.calls[i].pc.access, r))
      && r in t.db.refresh && t.db.refresh[r].family == g.family && !t.db.refresh[r].revoked
      && t.db.refresh[r].expires == e.now + e.refreshTtl && t.db.refresh[r].client == g.client
      && r in t.past.refresh && t.past.refresh[r].owner == i
      && t.db.access == s.db.access && t.past.access == s.past.access
  {
  }

  lemma SignStep(s: State, i: CallId, e: Env)
    requires i in s.calls && s.calls[i].pc.SignId? && s.calls[i].pc.g.claim.None? && WellFormed(s.calls[i])
    requires e.now == s.now && !e.fails
    ensures Enabled(s, Step(i, e))
    ensures var t, pc := Apply(s, Step(i, e)), s.calls[i].pc;
      && OnlyRan(s, t, i) && t.calls[i] == Call(s.calls[i].req, Done(Granted(pc.access, pc.refresh, pc.g.scope)))
      && t.db == s.db && t.past == s.past
  {
    StepMoves(s, i, e);
  }

  /** An exchange that has stored its access token stores its refresh token, signs and answers. */
  lemma StoredAccessFinishes(s: State, i: CallId, f: Family, e: Env) returns (events: seq<Event>, t: State, r: Hash)
    requires i in s.calls && s.calls[i].pc.StoreRefresh? && Exchanging(s.calls[i].pc, f) && WellFormed(s.calls[i])
    requires e.now == s.now && !e.fails && e.refreshTtl == 1 && Fresh(s, Sha256(e.newRefresh))
    ensures Leads(s, events, t) && OnlyRan(s, t, i) && WasGranted(t, i)
    ensures forall k :: 0 <= k < |events| ==> events[k].Step? && events[k].id == i
    ensures LiveRefresh(t, f, r) && t.calls[i].pc.outcome.refresh == r
    ensures t.db.refresh[r].client == s.calls[i].pc.g.client
    ensures t.calls[i].pc.outcome.access == s.calls[i].pc.access
    ensures t.db.access == s.db.access && t.past.access == s.past.access
  {
    r := Sha256(e.newRefresh);
    StoreRefreshStep(s, i, e);
    var s1 := Apply(s, Step(i, e));
    SignStep(s1, i, e);
    t := Apply(s1, Step(i, e));
    LeadsOne(s, Step(i, e));
    LeadsOneMore(s, [Step(i, e)], s1, Step(i, e));
    events := [Step(i, e)] + [Step(i, e)];
  }

  /** An exchange that is yet to store tokens can end with the ones it returns live: the refresh token always,
      the access token, too, if it is yet to be stored. */
  lemma ExchangeFinishes(s: State, i: CallId, f: Family) returns (events: seq<Event>, t: State)
    requires i in s.calls && Exchanging(s.calls[i].pc, f) && WellFormed(s.calls[i])
    ensures Leads(s, events, t) && OnlyRan(s, t, i) && WasGranted(t, i)
    ensures forall k :: 0 <= k < |events| ==> events[k].Step? && events[k].id == i
    ensures LiveRefresh(t, f, t.calls[i].pc.outcome.refresh)
    ensures t.db.refresh[t.calls[i].pc.outcome.refresh].client == s.calls[i].pc.g.client
    ensures s.calls[i].pc.StoreAccess? ==> LiveAccess(t, f, t.calls[i].pc.outcome.access)
  {
    var e := NewEnv(s, false);
    if s.calls[i].pc.StoreAccess? {
      StoreAccessStep(s, i, e);
      var s1 := Apply(s, Step(i, e));
      var more, end, r := StoredAccessFinishes(s1, i, f, e);
      events, t := [Step(i, e)] + more, end;
      LeadsOne(s, Step(i, e));
      LeadsOn(s, [Step(i, e)], s1, more, t);
    } else {
      var r: Hash;
      events, t, r := StoredAccessFinishes(s, i, f, e);
    }
  }

  /**
   * The code exchange has no re-read. So while it is storing its tokens, a call that deletes the family revokes
   * nothing for good: whatever else is in flight, every call can end with no delete of that call erring and with
   * the tokens that the exchange returns live, the refresh token always, and the access token, too, if it was yet
   * to be stored.
   */
  lemma EarlyReplayRevokesNothing(s: State, i: CallId, id: CallId, f: Family) returns (events: seq<Event>, t: State)
    requires i in s.calls && Exchanging(s.calls[i].pc, f) && i != id
    requires forall k :: k in s.calls ==> WellFormed(s.calls[k])
    ensures Leads(s, events, t) && NeverErrs(events, id) && Quiescent(t) && WasGranted(t, i)
    ensures LiveRefresh(t, f, t.calls[i].pc.outcome.refresh)
    ensures s.calls[i].pc.StoreAccess? ==> LiveAccess(t, f, t.calls[i].pc.outcome.access)
  {
    var first, mid := FinishOthers(s, i, id, s.calls.Keys - {i});
    var more, end := ExchangeFinishes(mid, i, f);
    events, t := first + more, end;
    LeadsOn(s, first, mid, more, t);
  }

  lemma AllWellFormed(s: State)
    requires Inv(s)
    ensures forall k :: k in s.calls ==> WellFormed(s.calls[k])
  {
    assert Holds(s, Calls);
    forall k | k in s.calls ensures WellFormed(s.calls[k]) {
      assert CallOk(s, k, s.calls[k]);
    }
  }

  lemma NoLiveToken(s: State, f: Family)
    requires NoReturnedToken(s, f)
    ensures !Live(s, f)
  {
  }

  /**
   * When the revocation that a detecting call starts can fail, exactly: some continuation in which no delete of
   * the call errs ends with a returned token of the family live if and only if, when the call decided to
   * delete the family, the exchange of its code was still storing tokens.
   */
  lemma RevocationFailsExactly(s: State, id: CallId, e: Env, f: Family)
    requires Inv(s) && Enabled(s, Step(id, e)) && Decision(s, id, e).1 == DelRefresh(f)
    ensures Survives(Apply(s, Step(id, e)), id, f) <==> !NoExchangePending(s, f)
  {
    var s' := Apply(s, Step(id, e));
    EventKeepsInv(s, Step(id, e));
    if NoExchangePending(s, f) {
      DetectionCondemns(s, id, e, f);
      forall events, t | Leads(s', events, t) && NeverErrs(events, id) && Quiescent(t) ensures !Live(t, f) {
        StaysInFlight(s', events, t, id);
        OwnDeletesAreFinal(s', events, t, id, f);
        NoLiveToken(t, f);
      }
    } else {
      var i :| i in s.calls && Exchanging(s.calls[i].pc, f);
      AllWellFormed(s');
      var events, t := EarlyReplayRevokesNothing(s', i, id, f);
      assert Live(t, f);
    }
  }

  /** A call is never forgotten. */
  lemma {:induction false} StaysInFlight(s: State, events: seq<Event>, t: State, id: CallId)
    requires Leads(s, events, t) && id in s.calls
    ensures id in t.calls
    decreases |events|
  {
    if events != [] {
      StaysInFlight(Apply(s, events[0]), events[1..], t, id);
    }
  }

  // ----- Both failures happen -----

  /** One exchange of an unused, unexpired code by its own client. */
  ghost predicate CanExchange(s: State, i: CallId, row: CodeRow) {
    && i in s.calls && s.calls[i].pc.CodeConsume? && s.calls[i].req.Exchange?
    && var req := s.calls[i].req;
    && req.code in s.db.codes && s.db.codes[req.code] == row && !row.used && s.now < row.expires
    && row.code == req.code && row.family.tenant == req.tenant && row.client == req.client
    && row.redirectUri == req.redirectUri && row.challenge == Absent
  }

  lemma ConsumeStep(s: State, i: CallId, row: CodeRow, e: Env)
    requires CanExchange(s, i, row) && e.now == s.now && !e.fails && e.clientFound
    ensures Enabled(s, Step(i, e))
    ensures var t := Apply(s, Step(i, e));
      && OnlyRan(s, t, i) && Exchanging(t.calls[i].pc, row.family) && t.calls[i].pc.StoreAccess?
      && WellFormed(t.calls[i]) && t.calls[i].req == s.calls[i].req && t.calls[i].pc.g.client == row.client
      && t.db.codes == s.db.codes[row.code := row.(used := true)] && t.db.refresh == s.db.refresh
      && t.past.refresh == s.past.refresh && t.past.access == s.past.access && t.past.presented == s.past.presented
  {
  }

  /** A code, and a request to exchange it. */
  const SOME_FAMILY := Family(0, 0)
  const SOME_CODE := CodeRow("c", SOME_FAMILY, 0, 0, "", "", Absent, "", None, [], false, 1)
  const SOME_REQUEST := Exchange(0, "c", 0, "", "")

  /** An exchange of a code begins. */
  lemma OneExchange() returns (events: seq<Event>, s: State)
    ensures Leads(Init(0), events, s) && CanExchange(s, 0, SOME_CODE)
    ensures s.calls == map[0 := Call(SOME_REQUEST, CodeConsume)]
    ensures s.now == 0 && s.db == Db(map[], map[], map["c" := SOME_CODE])
    ensures s.past.refresh == map[] && s.past.access == map[]
  {
    var s1 := Apply(Init(0), IssueCode(SOME_CODE));
    LeadsOne(Init(0), IssueCode(SOME_CODE));
    s := Apply(s1, Begin(0, SOME_REQUEST));
    LeadsOneMore(Init(0), [IssueCode(SOME_CODE)], s1, Begin(0, SOME_REQUEST));
    events := [IssueCode(SOME_CODE)] + [Begin(0, SOME_REQUEST)];
  }

  lemma ReplayStep(s: State, i: CallId, e: Env, row: CodeRow)
    requires i in s.calls && s.calls[i] == Call(SOME_REQUEST, CodeConsume) && e.now == s.now && !e.fails
    requires "c" in s.db.codes && s.db.codes["c"] == row && row.used && row.family == SOME_FAMILY
    ensures Enabled(s, Step(i, e))
    ensures var t := Apply(s, Step(i, e)); t == s.(calls := s.calls[i := Call(SOME_REQUEST, CodeRead)])
  {
    StepMoves(s, i, e);
  }

  lemma ReplayReads(s: State, i: CallId, e: Env, row: CodeRow)
    requires i in s.calls && s.calls[i] == Call(SOME_REQUEST, CodeRead) && e.now == s.now && !e.fails
    requires "c" in s.db.codes && s.db.codes["c"] == row && row.family == SOME_FAMILY
    ensures Enabled(s, Step(i, e)) && Decision(s, i, e).1 == DelRefresh(SOME_FAMILY)
  {
  }

  /** The early replay happens: the second of two exchanges of one code decides to delete the family while the
      first is to store its tokens. */
  lemma EarlyReplayIsReachable() returns (events: seq<Event>, s: State, e: Env)
    ensures Leads(Init(0), events, s)
    ensures Enabled(s, Step(1, e)) && Decision(s, 1, e).1 == DelRefresh(SOME_FAMILY)
    ensures !NoExchangePending(s, SOME_FAMILY) && s.calls[1].req == SOME_REQUEST
  {
    var first, s2 := OneExchange();
    var s3 := Apply(s2, Begin(1, SOME_REQUEST));
    LeadsOneMore(Init(0), first, s2, Begin(1, SOME_REQUEST));
    e := NewEnv(s3, false);
    ConsumeStep(s3, 0, SOME_CODE, e);
    var s4 := Apply(s3, Step(0, e));
    LeadsOneMore(Init(0), first + [Begin(1, SOME_REQUEST)], s3, Step(0, e));
    ReplayStep(s4, 1, e, SOME_CODE.(used := true));
    s := Apply(s4, Step(1, e));
    events := first + [Begin(1, SOME_REQUEST)] + [Step(0, e)];
    LeadsOneMore(Init(0), events, s4, Step(1, e));
    events := events + [Step(1, e)];
    ReplayReads(s, 1, e, SOME_CODE.(used := true));
    assert Exchanging(s.calls[0].pc, SOME_FAMILY);
  }

  /** A code is exchanged, and a live refresh token returned. */
  lemma OneGrant() returns (events: seq<Event>, s: State, h: Hash)
    ensures Leads(Init(0), events, s) && s.calls.Keys == {0} && Quiescent(s)
    ensures LiveRefresh(s, SOME_FAMILY, h) && s.db.refresh[h].client == 0
  {
    var first, s2 := OneExchange();
    var e := NewEnv(s2, false);
    ConsumeStep(s2, 0, SOME_CODE, e);
    var s3 := Apply(s2, Step(0, e));
    LeadsOneMore(Init(0), first, s2, Step(0, e));
    var more, end := ExchangeFinishes(s3, 0, SOME_FAMILY);
    LeadsOn(Init(0), first + [Step(0, e)], s3, more, end);
    events, s, h := first + [Step(0, e)] + more, end, end.calls[0].pc.outcome.refresh;
  }

  lemma RevokeStep(s: State, i: CallId, h: Hash, e: Env)
    requires i in s.calls && s.calls[i] == Call(Revoke(0, h.preimage, "refresh_token", 0), RevokeRead)
    requires LiveRefresh(s, SOME_FAMILY, h) && s.db.refresh[h].client == 0 && e.now == s.now && !e.fails
    requires NoExchangePending(s, SOME_FAMILY)
    ensures Enabled(s, Step(i, e))
    ensures Apply(s, Step(i, e)) == Condemned(Moved(s, i, DelRefresh(SOME_FAMILY)), SOME_FAMILY)
  {
    StepCondemns(s, i, e, SOME_FAMILY);
  }

  lemma SlipStep(s: State, i: CallId, f: Family, e: Env)
    requires i in s.calls && WellFormed(s.calls[i]) && e.now == s.now && e.fails
    requires s.calls[i].pc == DelRefresh(f) || s.calls[i].pc == DelAccess(f)
    ensures Enabled(s, Step(i, e))
    ensures var t := Apply(s, Step(i, e));
      && OnlyRan(s, t, i) && t.db == s.db && t.past == Slipped(s, f).past && t.calls[i].req == s.calls[i].req
      && t.calls[i].pc == (if s.calls[i].pc == DelRefresh(f) then DelAccess(f) else Done(Revoked(s.calls[i].req)))
  {
    if s.calls[i].pc == DelRefresh(f) {
      StepWipes(s, i, e, f);
    } else {
      StepWipesAccess(s, i, e, f);
    }
  }

  /** A revocation whose deletes err is acknowledged, and leaves the revoked token live. */
  lemma ErringRevocationIsReachable() returns (events: seq<Event>, t: State, h: Hash)
    ensures Leads(Init(0), events, t) && Quiescent(t)
    ensures SOME_FAMILY in t.past.marks.condemned && LiveRefresh(t, SOME_FAMILY, h)
    ensures 1 in t.calls && t.calls[1] == Call(Revoke(0, h.preimage, "refresh_token", 0), Done(Acknowledged))
  {
    var first, s: State;
    first, s, h := OneGrant();
    var req := Revoke(0, h.preimage, "refresh_token", 0);
    var s1 := Apply(s, Begin(1, req));
    LeadsOneMore(Init(0), first, s, Begin(1, req));
    events := first + [Begin(1, req)];
    assert LiveRefresh(s1, SOME_FAMILY, h);
    var e := NewEnv(s1, false);
    RevokeStep(s1, 1, h, e);
    LeadsOneMore(Init(0), events, s1, Step(1, e));
    events := events + [Step(1, e)];
    var s2 := Apply(s1, Step(1, e));
    var more;
    more, t := BothErr(s2, h);
    LeadsOn(Init(0), events, s2, more, t);
    events := events + more;
  }

  lemma BothErr(s: State, h: Hash) returns (events: seq<Event>, t: State)
    requires 1 in s.calls && s.calls[1].pc == DelRefresh(SOME_FAMILY) && WellFormed(s.calls[1])
    requires LiveRefresh(s, SOME_FAMILY, h)
    requires forall k :: k in s.calls && k != 1 ==> s.calls[k].pc.Done?
    ensures Leads(s, events, t) && Quiescent(t) && LiveRefresh(t, SOME_FAMILY, h)
    ensures t.past.marks.condemned == s.past.marks.condemned
    ensures 1 in t.calls && t.calls[1] == Call(s.calls[1].req, Done(Revoked(s.calls[1].req)))
  {
    var e := Env(s.now, true, true, "", "", 1, 1);
    SlipStep(s, 1, SOME_FAMILY, e);
    var s1 := Apply(s, Step(1, e));
    SlipStep(s1, 1, SOME_FAMILY, e);
    t := Apply(s1, Step(1, e));
    LeadsOne(s, Step(1, e));
    LeadsOneMore(s, [Step(1, e)], s1, Step(1, e));
    events := [Step(1, e)] + [Step(1, e)];
  }
}
