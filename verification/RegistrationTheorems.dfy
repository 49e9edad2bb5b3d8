/** What holds in every state of every run of RegistrationMachine. */
module RegistrationTheorems {
  import opened Common
  import opened Scopes
  import opened ClientMetadata
  import opened RegistrationCalls
  import opened RegistrationMachine

  /** Every client ever created with the token. */
  ghost function ClientsMadeWith(past: History, h: Hash): set<string> {
    set id | id in past.made && past.made[id].call in past.consumers && past.consumers[past.made[id].call] == h
  }

  lemma {:induction false} FewerClientsThanCalls(s: State, h: Hash, ids: set<string>, calls: set<CallId>)
    requires AllMadeOk(s)
    requires forall id :: id in ids ==> id in s.past.made && s.past.made[id].call in calls
    ensures |ids| <= |calls|
    decreases |ids|
  {
    if id :| id in ids {
      var i := s.past.made[id].call;
      forall other | other in ids - {id} ensures s.past.made[other].call in calls - {i} {
        assert MadeOk(s.past, s.calls, id);
      }
      FewerClientsThanCalls(s, h, ids - {id}, calls - {i});
    }
  }

  /** However concurrently it is used, a token never registers more clients than its recorded uses, which
      never exceed its limit. */
  lemma UsesAreBounded(policy: UriPolicy, run: seq<State>, k: nat, h: Hash)
    requires IsRun(policy, run) && k < |run| && h in run[k].db.tokens
    ensures |ClientsMadeWith(run[k].past, h)| <= run[k].db.tokens[h].uses <= run[k].db.tokens[h].maxUses <= MAX_USES
  {
    RunInv(policy, run, k);
    assert TokenOk(run[k].db.tokens, run[k].past, h);
    FewerClientsThanCalls(run[k], h, ClientsMadeWith(run[k].past, h), Consumers(run[k].past, h));
  }

  /** Through every registration and update a client's scopes stay within those of the token it was created
      with, and its type stays what it was at its creation. */
  lemma ClientsStayWithinTheirToken(policy: UriPolicy, run: seq<State>, k: nat, id: string)
    requires IsRun(policy, run) && k < |run| && id in run[k].db.clients
    ensures var s, c := run[k], run[k].db.clients[id];
      && id in s.past.made && s.past.made[id].call in s.past.consumers
      && var h := s.past.consumers[s.past.made[id].call];
      && h in s.db.tokens && s.db.tokens[h].tenant == c.tenant
      && ListSet(c.meta.scopes) <= ListSet(s.db.tokens[h].scopes)
      && c.isPublic == s.past.made[id].isPublic == Public(c.meta)
  {
    RunInv(policy, run, k);
    assert ClientOk(policy, run[k].db.tokens, run[k].past, id, run[k].db.clients[id]);
  }

  lemma EventGrows(policy: UriPolicy, s: State, ev: Event)
    requires Inv(policy, s) && Enabled(s, ev)
    ensures Grows(s.db.tokens, s.past, Apply(policy, s, ev).db.tokens, Apply(policy, s, ev).past)
  {
    if ev.Step? {
      assert CallOk(policy, s.db.tokens, s.past, ev.id, s.calls[ev.id]);
      StepGrows(policy, s, ev.id, ev.env);
    }
  }

  lemma NextGrows(policy: UriPolicy, s: State, s': State)
    requires Inv(policy, s) && Next(policy, s, s')
    ensures Grows(s.db.tokens, s.past, s'.db.tokens, s'.past)
  {
    var ev :| Enabled(s, ev) && s' == Apply(policy, s, ev);
    EventGrows(policy, s, ev);
  }

  lemma GrowsOn(a: State, b: State, c: State)
    requires Grows(a.db.tokens, a.past, b.db.tokens, b.past) && Grows(b.db.tokens, b.past, c.db.tokens, c.past)
    ensures Grows(a.db.tokens, a.past, c.db.tokens, c.past)
  {
  }

  /** Tokens and the records of created clients are never lost or changed. */
  lemma {:induction false} RunGrows(policy: UriPolicy, run: seq<State>, k: nat, n: nat)
    requires IsRun(policy, run) && k <= n < |run|
    ensures Grows(run[k].db.tokens, run[k].past, run[n].db.tokens, run[n].past)
  {
    if k < n {
      RunGrows(policy, run, k, n - 1);
      RunInv(policy, run, n - 1);
      assert StepAt(policy, run, n - 1);
      NextGrows(policy, run[n - 1], run[n]);
      GrowsOn(run[k], run[n - 1], run[n]);
    }
  }

  /** The type of a client never changes over a run. */
  lemma TypeNeverChanges(policy: UriPolicy, run: seq<State>, k: nat, n: nat, id: string)
    requires IsRun(policy, run) && k <= n < |run| && id in run[k].db.clients && id in run[n].db.clients
    ensures run[n].db.clients[id].isPublic == run[k].db.clients[id].isPublic
  {
    RunGrows(policy, run, k, n);
    ClientsStayWithinTheirToken(policy, run, k, id);
    ClientsStayWithinTheirToken(policy, run, n, id);
  }

  // ----- Who can change a client -----

  /** The step of this call saves or deletes the client, and the call presented the registration access token that
      the client was registered with, to the client's tenant. */
  ghost predicate ByHolder(s: State, i: CallId, id: string) {
    && i in s.calls && id in s.past.made
    && var req := s.calls[i].req;
    && (req.Update? || req.Delete?) && req.clientId == id
    && req.tenant == s.past.made[id].tenant && Sha256(req.registrationToken) == s.past.made[id].token
  }

  ghost predicate Same(s: State, s': State, id: string) {
    id in s.db.clients && id in s'.db.clients && s'.db.clients[id] == s.db.clients[id]
  }

  /** What changes a client is the save or the delete of its row. */
  lemma StatementChanges(db: Db, effect: Effect, id: string)
    requires id in db.clients
    requires id !in Perform(db, effect).clients || Perform(db, effect).clients[id] != db.clients[id]
    ensures (effect.SaveClient? || effect.DropClient?) && effect.clientId == id
  {
  }

  lemma SaverOrDropper(policy: UriPolicy, db: Db, c: Call, e: Env)
    requires WellFormed(c)
    ensures var effect := Decide(policy, db, c, e).0;
      && (effect.SaveClient? ==>
            || (c.pc.RegisterCreate? && effect.clientId == e.newClientId)
            || (c.pc.UpdateSave? && c.req.Update? && effect.clientId == c.req.clientId))
      && (effect.DropClient? ==> c.pc.DeleteRow? && c.req.Delete? && effect.clientId == c.req.clientId)
  {
  }

  lemma StepIsByHolder(policy: UriPolicy, s: State, i: CallId, e: Env, id: string)
    requires ClientsOk(policy, s) && CallsOk(policy, s) && Enabled(s, Step(i, e)) && id in s.db.clients
    requires !Same(s, Apply(policy, s, Step(i, e)), id)
    ensures ByHolder(s, i, id)
  {
    assert CallOk(policy, s.db.tokens, s.past, i, s.calls[i]);
    assert ClientOk(policy, s.db.tokens, s.past, id, s.db.clients[id]);
    var (effect, pc) := Decide(policy, s.db, s.calls[i], e);
    StatementChanges(s.db, effect, id);
    SaverOrDropper(policy, s.db, s.calls[i], e);
  }

  lemma NextIsByHolder(policy: UriPolicy, s: State, s': State, id: string) returns (i: CallId)
    requires Inv(policy, s) && Next(policy, s, s') && id in s.db.clients
    ensures id in s.past.made && id in s'.past.made && s'.past.made[id] == s.past.made[id]
    ensures !Same(s, s', id) ==> ByHolder(s, i, id)
  {
    assert ClientOk(policy, s.db.tokens, s.past, id, s.db.clients[id]);
    NextGrows(policy, s, s');
    var ev :| Enabled(s, ev) && s' == Apply(policy, s, ev);
    i := 0;
    if !Same(s, s', id) {
      i := ev.id;
      StepIsByHolder(policy, s, ev.id, ev.env, id);
    }
  }

  /** Whatever runs, a stored client changes or disappears only through an update or a deletion by a call that
      presented the registration access token that the client was registered with. */
  lemma {:induction false} OnlyTheHolderChanges(policy: UriPolicy, run: seq<State>, m: nat, n: nat, id: string)
    returns (k: nat, i: CallId)
    requires IsRun(policy, run) && m <= n < |run| && id in run[m].db.clients && !Same(run[m], run[n], id)
    ensures m <= k < n && ByHolder(run[k], i, id)
    ensures id in run[m].past.made && run[k].past.made[id] == run[m].past.made[id]
    decreases n - m
  {
    RunInv(policy, run, m);
    assert StepAt(policy, run, m);
    i := NextIsByHolder(policy, run[m], run[m + 1], id);
    k := m;
    if Same(run[m], run[m + 1], id) {
      k, i := OnlyTheHolderChanges(policy, run, m + 1, n, id);
    }
  }

  /** A stored client has the tenant and the registration access token that it was registered with. */
  lemma ClientsKeepTheirHolder(policy: UriPolicy, run: seq<State>, k: nat, id: string)
    requires IsRun(policy, run) && k < |run| && id in run[k].db.clients
    ensures id in run[k].past.made
    ensures run[k].db.clients[id].registrationToken == run[k].past.made[id].token
    ensures run[k].db.clients[id].tenant == run[k].past.made[id].tenant
  {
    RunInv(policy, run, k);
    assert ClientOk(policy, run[k].db.tokens, run[k].past, id, run[k].db.clients[id]);
  }

  /** A use is only counted for a request whose metadata is valid and within the scopes of the token, by a
      token that was live: bad metadata spends nothing. */
  lemma OnlyGoodMetadataSpends(policy: UriPolicy, run: seq<State>, k: nat, i: CallId, e: Env)
    requires IsRun(policy, run) && k < |run| && Enabled(run[k], Step(i, e))
    requires Apply(policy, run[k], Step(i, e)).past.consumers != run[k].past.consumers
    ensures run[k].calls[i].req.Register?
    ensures var h := Sha256(run[k].calls[i].req.token);
      && h in run[k].db.tokens && Validate(policy, run[k].calls[i].req.meta).Ok?
      && Proposal(policy, run[k].calls[i].req.meta, run[k].db.tokens[h].scopes).Ok?
      && !run[k].db.tokens[h].revoked && e.now < run[k].db.tokens[h].expires
  {
    RunInv(policy, run, k);
    assert CallOk(policy, run[k].db.tokens, run[k].past, i, run[k].calls[i]);
  }

  /** In every state, sending a client's metadata as Read returns it back to Update leaves it unchanged,
      exactly when the client has at most 50 scopes. */
  lemma ReadThenUpdateKeeps(policy: UriPolicy, run: seq<State>, k: nat, id: string)
    requires IsRun(policy, run) && k < |run| && id in run[k].db.clients
    ensures var c := run[k].db.clients[id];
      Replacement(policy, c, id, Render(id, c.meta)) ==
        if |c.meta.scopes| <= MAX_SCOPES then Ok(c.meta) else Err(InvalidClientMetadata)
  {
    RunInv(policy, run, k);
    assert ClientOk(policy, run[k].db.tokens, run[k].past, id, run[k].db.clients[id]);
    ReadThenUpdate(policy, run[k].db.clients[id], id);
  }

  // ----- A client with more than 50 scopes -----

  function ScopeNames(n: nat): seq<string> {
    if n == 0 then [] else ScopeNames(n - 1) + [Repeat(n)]
  }

  function Repeat(n: nat): string {
    if n == 0 then "" else Repeat(n - 1) + "s"
  }

  lemma {:induction false} RepeatIsToken(n: nat)
    ensures |Repeat(n)| == n && Utf8Length(Repeat(n)) == n && forall i :: 0 <= i < n ==> Repeat(n)[i] == 's'
  {
    if n > 0 {
      RepeatIsToken(n - 1);
      Utf8LengthAppends(Repeat(n - 1), 's');
    }
  }

  lemma {:induction false} Utf8LengthAppends(s: string, c: char)
    ensures Utf8Length(s + [c]) == Utf8Length(s) + Utf8Length([c])
  {
    if s != "" {
      Utf8LengthAppends(s[1..], c);
      assert (s + [c])[1..] == s[1..] + [c];
    }
  }

  lemma RepeatIsScope(n: nat)
    requires 0 < n <= MAX_SCOPE_LENGTH
    ensures ScopeToken(Repeat(n))
  {
    RepeatIsToken(n);
  }

  lemma {:induction false} ScopeNamesAreTokens(n: nat)
    requires n <= MAX_SCOPE_LENGTH
    ensures |ScopeNames(n)| == n && forall i :: 0 <= i < n ==> ScopeNames(n)[i] == Repeat(i + 1)
    ensures ScopeTokens(ScopeNames(n))
  {
    if n > 0 {
      ScopeNamesAreTokens(n - 1);
      RepeatIsScope(n);
      var init := ScopeNames(n - 1);
      assert forall i :: 0 <= i < n - 1 ==> ScopeNames(n)[i] == init[i];
    }
  }

  lemma ScopeNamesAreClean(n: nat)
    requires n <= MAX_SCOPE_LENGTH
    ensures Clean(ScopeNames(n))
  {
    ScopeNamesAreTokens(n);
    forall i | 0 <= i < n ensures |ScopeNames(n)[i]| == i + 1 && TrimSpace(ScopeNames(n)[i]) == ScopeNames(n)[i] {
      RepeatIsToken(i + 1);
      TrimmedStays(ScopeNames(n)[i]);
    }
  }

  /** A document that names no scope. */
  const PLAIN := Metadata("", [], [], "", [CLIENT_CREDENTIALS], [], "a", "")

  lemma PlainGrants()
    ensures GrantsOf(PLAIN) == [CLIENT_CREDENTIALS] && GrantsOk([CLIENT_CREDENTIALS])
    ensures AUTHORIZATION_CODE !in [CLIENT_CREDENTIALS]
  {
    TrimmedStays(CLIENT_CREDENTIALS);
    DedupeKeepsClean([CLIENT_CREDENTIALS]);
  }

  lemma PlainAuthMethod()
    ensures AuthMethodOf(PLAIN) == CLIENT_SECRET_BASIC && AuthMethodOk(CLIENT_SECRET_BASIC, [CLIENT_CREDENTIALS])
  {
  }

  lemma PlainName()
    ensures NameOf(PLAIN) == "a" && NameOk("a")
  {
    TrimmedStays("a");
    assert Utf8Length("a") == 1;
  }

  lemma PlainIsValid(policy: UriPolicy)
    ensures Validate(policy, PLAIN) == Ok(Registered("a", [], [], [CLIENT_CREDENTIALS], CLIENT_SECRET_BASIC, []))
  {
    PlainGrants();
    PlainAuthMethod();
    PlainName();
  }

  /** The token that a request with n scope names is given. */
  function LongToken(n: nat): InitialToken {
    InitialToken(0, ScopeNames(n), 1, 0, false, DEFAULT_TTL)
  }

  lemma LongTokenIsIssued(n: nat)
    requires 0 < n <= MAX_SCOPE_LENGTH
    ensures NewToken(0, ScopeNames(n), 0, 0, 0) == Some(LongToken(n))
  {
    ScopeNamesAreTokens(n);
    ScopeNamesAreClean(n);
    DedupeKeepsClean(ScopeNames(n));
  }

  function LongClient(n: nat): Registered {
    Registered("a", [], [], [CLIENT_CREDENTIALS], CLIENT_SECRET_BASIC, ScopeNames(n))
  }

  lemma PlainTakesAll(policy: UriPolicy, n: nat)
    requires 0 < n <= MAX_SCOPE_LENGTH
    ensures Proposal(policy, PLAIN, ScopeNames(n)) == Ok(LongClient(n))
  {
    PlainIsValid(policy);
  }

  lemma RunOn(policy: UriPolicy, run: seq<State>, ev: Event)
    requires IsRun(policy, run) && Enabled(run[|run| - 1], ev)
    ensures IsRun(policy, run + [Apply(policy, run[|run| - 1], ev)])
  {
    var more := run + [Apply(policy, run[|run| - 1], ev)];
    forall k: nat | k + 1 < |more| ensures StepAt(policy, more, k) {
      if k < |run| - 1 {
        assert StepAt(policy, run, k);
      }
    }
  }

  /** An initial access token with n scopes is issued. */
  lemma IssueRuns(policy: UriPolicy, n: nat) returns (run: seq<State>)
    requires 0 < n <= MAX_SCOPE_LENGTH
    ensures IsRun(policy, run)
    ensures var s := run[|run| - 1];
      && s.db == Db(map[Sha256("t") := LongToken(n)], map[]) && s.calls.Keys == {0} && s.now == 0
      && s.past == History(map[], map[])
  {
    var s0 := State(Db(map[], map[]), map[], 0, History(map[], map[]));
    run := [s0];
    var begin := Begin(0, Issue(0, ScopeNames(n), 0, 0));
    RunOn(policy, run, begin);
    var s1 := Apply(policy, s0, begin);
    run := run + [s1];
    LongTokenIsIssued(n);
    var step := Step(0, Env(0, false, "t", "c"));
    RunOn(policy, run, step);
    run := run + [Apply(policy, s1, step)];
  }

  /** What the steps of call 1, which registers with the token, are given. */
  const LAST := Env(0, false, "r", "c")

  ghost predicate HasLongToken(s: State, n: nat, uses: int) {
    && s.db.tokens == map[Sha256("t") := LongToken(n).(uses := uses)] && s.db.clients == map[] && s.now == 0
    && s.past.made == map[] && 1 in s.calls && s.calls[1].req == Register(0, "t", PLAIN)
  }

  lemma ReadStep(policy: UriPolicy, s: State, n: nat)
    requires 0 < n <= MAX_SCOPE_LENGTH && HasLongToken(s, n, 0) && s.calls[1].pc.RegisterRead?
    ensures Enabled(s, Step(1, LAST))
    ensures var t := Apply(policy, s, Step(1, LAST));
      HasLongToken(t, n, 0) && t.calls[1].pc == RegisterConsume(LongClient(n))
  {
    PlainTakesAll(policy, n);
  }

  lemma ConsumeStep(policy: UriPolicy, s: State, n: nat)
    requires HasLongToken(s, n, 0) && s.calls[1].pc == RegisterConsume(LongClient(n))
    ensures Enabled(s, Step(1, LAST))
    ensures var t := Apply(policy, s, Step(1, LAST));
      HasLongToken(t, n, 1) && t.calls[1].pc == RegisterCreate(LongClient(n))
  {
  }

  lemma CreateStep(policy: UriPolicy, s: State, n: nat)
    requires HasLongToken(s, n, 1) && s.calls[1].pc == RegisterCreate(LongClient(n))
    ensures Enabled(s, Step(1, LAST))
    ensures var t := Apply(policy, s, Step(1, LAST));
      "c" in t.db.clients && t.db.clients["c"].meta == LongClient(n)
  {
  }

  /** Clients with more than 50 scopes are reached: a token may allow more, and a client that names no scope takes
      them all over. Such a client cannot send back what it reads. */
  lemma LongScopeListsAreTaken(policy: UriPolicy, n: nat) returns (run: seq<State>)
    requires MAX_SCOPES < n <= MAX_SCOPE_LENGTH
    ensures IsRun(policy, run)
    ensures var clients := run[|run| - 1].db.clients;
      && "c" in clients && |clients["c"].meta.scopes| == n
      && Replacement(policy, clients["c"], "c", Render("c", clients["c"].meta)) == Err(InvalidClientMetadata)
  {
    run := IssueRuns(policy, n);
    var s := run[|run| - 1];
    var begin := Begin(1, Register(0, "t", PLAIN));
    RunOn(policy, run, begin);
    var s0 := Apply(policy, s, begin);
    run := run + [s0];
    ReadStep(policy, s0, n);
    RunOn(policy, run, Step(1, LAST));
    var s1 := Apply(policy, s0, Step(1, LAST));
    run := run + [s1];
    ConsumeStep(policy, s1, n);
    RunOn(policy, run, Step(1, LAST));
    var s2 := Apply(policy, s1, Step(1, LAST));
    run := run + [s2];
    CreateStep(policy, s2, n);
    RunOn(policy, run, Step(1, LAST));
    run := run + [Apply(policy, s2, Step(1, LAST))];
    ScopeNamesAreTokens(n);
    ReadThenUpdateKeeps(policy, run, |run| - 1, "c");
  }
}
