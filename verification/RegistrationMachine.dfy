/** Registration calls interleaved statement by statement, and what holds in every state they reach. */
module RegistrationMachine {
  import opened Common
  import opened Scopes
  import opened ClientMetadata
  import opened RegistrationCalls

  type CallId = nat

  /** A client was created by a Register call, in a tenant, with the given type and registration access token. */
  datatype Made = Made(call: CallId, tenant: Id, isPublic: bool, token: Hash)

  /** Which token each Register call has counted a use of, and every client ever created. */
  datatype History = History(consumers: map<CallId, Hash>, made: map<string, Made>)

  datatype State = State(db: Db, calls: map<CallId, Call>, now: Time, past: History)

  datatype Event =
    | Begin(id: CallId, req: Request)
    | Step(id: CallId, env: Env)
    | Tick(to: Time)

  /** Random tokens and client ids are new. */
  ghost predicate Enabled(s: State, ev: Event) {
    match ev
    case Begin(id, _) => id !in s.calls
    case Step(id, e) =>
      && id in s.calls && !s.calls[id].pc.Done? && WellFormed(s.calls[id]) && e.now == s.now
      && Sha256(e.newToken) !in s.db.tokens && e.newClientId !in s.past.made
    case Tick(to) => s.now <= to
  }

  ghost function Recorded(s: State, i: CallId, effect: Effect): History
    requires i in s.calls
  {
    match effect
    case Consume(tenant, h, now) =>
      if Consumable(s.db.tokens, tenant, h, now) then s.past.(consumers := s.past.consumers[i := h]) else s.past
    case SaveClient(id, client) =>
      if s.calls[i].pc.RegisterCreate? then
        s.past.(made := s.past.made[id := Made(i, client.tenant, client.isPublic, client.registrationToken)])
      else s.past
    case _ => s.past
  }

  ghost function Apply(policy: UriPolicy, s: State, ev: Event): State
    requires Enabled(s, ev)
  {
    match ev
    case Begin(id, req) => s.(calls := s.calls[id := Call(req, Start(req))])
    case Step(id, e) =>
      var (effect, pc) := Decide(policy, s.db, s.calls[id], e);
      State(Perform(s.db, effect), s.calls[id := s.calls[id].(pc := pc)], s.now, Recorded(s, id, effect))
    case Tick(to) => s.(now := to)
  }

  ghost predicate Next(policy: UriPolicy, s: State, s': State) {
    exists ev :: Enabled(s, ev) && s' == Apply(policy, s, ev)
  }

  /** The k-th state of the run leads to the next. */
  ghost predicate StepAt(policy: UriPolicy, run: seq<State>, k: nat) {
    k + 1 < |run| && Next(policy, run[k], run[k + 1])
  }

  ghost predicate IsRun(policy: UriPolicy, run: seq<State>) {
    && |run| > 0
    && (exists now :: run[0] == State(Db(map[], map[]), map[], now, History(map[], map[])))
    && forall k: nat :: k + 1 < |run| ==> StepAt(policy, run, k)
  }

  // ----- The invariant -----

  ghost function Consumers(past: History, h: Hash): set<CallId> {
    set i | i in past.consumers && past.consumers[i] == h
  }

  /** A token allows some scopes, and counts the calls that used it. */
  ghost predicate TokenOk(tokens: map<Hash, InitialToken>, past: History, h: Hash)
    requires h in tokens
  {
    && tokens[h].scopes != [] && ScopeTokens(tokens[h].scopes)
    && tokens[h].uses == |Consumers(past, h)| <= tokens[h].maxUses <= MAX_USES
  }

  /** The client was registered with a token of its tenant that allows its scopes. */
  ghost predicate ComesFrom(tokens: map<Hash, InitialToken>, past: History, id: string, c: Client) {
    && id in past.made && past.made[id].call in past.consumers
    && var h := past.consumers[past.made[id].call];
    && h in tokens && tokens[h].tenant == c.tenant && ListSet(c.meta.scopes) <= ListSet(tokens[h].scopes)
    && c.isPublic == past.made[id].isPublic && c.tenant == past.made[id].tenant
    && c.registrationToken == past.made[id].token
  }

  /** The client was created in the tenant, with this registration access token. */
  ghost predicate Holds(past: History, tenant: Id, id: string, token: string) {
    id in past.made && past.made[id].tenant == tenant && past.made[id].token == Sha256(token)
  }

  ghost predicate ClientOk(policy: UriPolicy, tokens: map<Hash, InitialToken>, past: History, id: string, c: Client) {
    ComesFrom(tokens, past, id, c) && Normal(policy, c.meta) && c.isPublic == Public(c.meta)
  }

  ghost predicate CallOk(policy: UriPolicy, tokens: map<Hash, InitialToken>, past: History, i: CallId, c: Call) {
    && WellFormed(c)
    && (i in past.consumers ==> c.req.Register? && past.consumers[i] == Sha256(c.req.token))
    && match c.pc
       case RegisterRead => i !in past.consumers
       case RegisterConsume(md) => i !in past.consumers && Admissible(policy, tokens, c.req, md)
       case RegisterCreate(md) => i in past.consumers && Admissible(policy, tokens, c.req, md)
       case UpdateSave(client) =>
         && ClientOk(policy, tokens, past, c.req.clientId, client)
         && Holds(past, c.req.tenant, c.req.clientId, c.req.registrationToken)
       case DeleteRow => Holds(past, c.req.tenant, c.req.clientId, c.req.registrationToken)
       case _ => true
  }

  /** The metadata is what validation made of the request, and within the scopes of the token. */
  ghost predicate Admissible(policy: UriPolicy, tokens: map<Hash, InitialToken>, req: Request, md: Registered)
    requires req.Register?
  {
    var h := Sha256(req.token);
    && h in tokens && tokens[h].tenant == req.tenant && Proposal(policy, req.meta, tokens[h].scopes) == Ok(md)
  }

  /** A call creates at most one client. */
  ghost predicate MadeOk(past: History, calls: map<CallId, Call>, id: string)
    requires id in past.made
  {
    && past.made[id].call in past.consumers && past.made[id].call in calls && calls[past.made[id].call].pc.Done?
    && forall other :: other in past.made && past.made[other].call == past.made[id].call ==> other == id
  }

  ghost predicate TokensOk(s: State) {
    && s.past.consumers.Keys <= s.calls.Keys
    && (forall i :: i in s.past.consumers ==> s.past.consumers[i] in s.db.tokens)
    && forall h :: h in s.db.tokens ==> TokenOk(s.db.tokens, s.past, h)
  }

  ghost predicate ClientsOk(policy: UriPolicy, s: State) {
    forall id :: id in s.db.clients ==> ClientOk(policy, s.db.tokens, s.past, id, s.db.clients[id])
  }

  ghost predicate CallsOk(policy: UriPolicy, s: State) {
    forall i :: i in s.calls ==> CallOk(policy, s.db.tokens, s.past, i, s.calls[i])
  }

  ghost predicate AllMadeOk(s: State) {
    forall id :: id in s.past.made ==> MadeOk(s.past, s.calls, id)
  }

  ghost predicate Inv(policy: UriPolicy, s: State) {
    TokensOk(s) && ClientsOk(policy, s) && CallsOk(policy, s) && AllMadeOk(s)
  }

  // ----- Every event keeps it -----

  /** Tokens are never lost, and keep their tenant and scopes; records are never lost. */
  ghost predicate Grows(tokens: map<Hash, InitialToken>, past: History,
                        tokens': map<Hash, InitialToken>, past': History)
  {
    && (forall h :: h in tokens ==>
          h in tokens' && tokens'[h].tenant == tokens[h].tenant && tokens'[h].scopes == tokens[h].scopes)
    && (forall i :: i in past.consumers ==> i in past'.consumers && past'.consumers[i] == past.consumers[i])
    && (forall id :: id in past.made ==> id in past'.made && past'.made[id] == past.made[id])
  }

  lemma StepGrows(policy: UriPolicy, s: State, i: CallId, e: Env)
    requires Enabled(s, Step(i, e)) && CallOk(policy, s.db.tokens, s.past, i, s.calls[i])
    ensures var s' := Apply(policy, s, Step(i, e)); Grows(s.db.tokens, s.past, s'.db.tokens, s'.past)
    ensures var s' := Apply(policy, s, Step(i, e));
      forall k :: k in s'.past.consumers ==> k in s.past.consumers || k == i
  {
  }

  lemma ClientStaysOk(policy: UriPolicy, s: State, s': State, id: string, c: Client)
    requires Grows(s.db.tokens, s.past, s'.db.tokens, s'.past) && ClientOk(policy, s.db.tokens, s.past, id, c)
    ensures ClientOk(policy, s'.db.tokens, s'.past, id, c)
  {
  }

  lemma OtherCallStaysOk(policy: UriPolicy, s: State, s': State, i: CallId, k: CallId, c: Call)
    requires Grows(s.db.tokens, s.past, s'.db.tokens, s'.past) && k != i
    requires forall m :: m in s'.past.consumers ==> m in s.past.consumers || m == i
    requires CallOk(policy, s.db.tokens, s.past, k, c)
    ensures CallOk(policy, s'.db.tokens, s'.past, k, c)
  {
  }

  lemma ConsumeKeepsToken(tokens: map<Hash, InitialToken>, past: History, i: CallId, used: Hash, h: Hash)
    requires used in tokens && h in tokens && TokenOk(tokens, past, h) && i !in past.consumers
    requires h == used ==> tokens[h].uses < tokens[h].maxUses
    ensures TokenOk(tokens[used := tokens[used].(uses := tokens[used].uses + 1)],
                    past.(consumers := past.consumers[i := used]), h)
  {
    var past' := past.(consumers := past.consumers[i := used]);
    assert Consumers(past', h) == if h == used then Consumers(past, h) + {i} else Consumers(past, h);
  }

  lemma ConsumeKeepsTokens(policy: UriPolicy, s: State, i: CallId, e: Env)
    requires TokensOk(s) && Enabled(s, Step(i, e)) && s.calls[i].pc.RegisterConsume? && i !in s.past.consumers
    ensures TokensOk(Apply(policy, s, Step(i, e)))
  {
    var s' := Apply(policy, s, Step(i, e));
    forall h | h in s'.db.tokens ensures TokenOk(s'.db.tokens, s'.past, h) {
      assert TokenOk(s.db.tokens, s.past, h);
      if s'.past != s.past {
        ConsumeKeepsToken(s.db.tokens, s.past, i, Sha256(s.calls[i].req.token), h);
      }
    }
  }

  lemma StepKeepsTokens(policy: UriPolicy, s: State, i: CallId, e: Env)
    requires TokensOk(s) && Enabled(s, Step(i, e)) && CallOk(policy, s.db.tokens, s.past, i, s.calls[i])
    ensures TokensOk(Apply(policy, s, Step(i, e)))
  {
    if s.calls[i].pc.RegisterConsume? {
      ConsumeKeepsTokens(policy, s, i, e);
    } else {
      var s' := Apply(policy, s, Step(i, e));
      forall h | h in s'.db.tokens ensures TokenOk(s'.db.tokens, s'.past, h) {
        assert Consumers(s'.past, h) == Consumers(s.past, h);
        if h in s.db.tokens {
          assert TokenOk(s.db.tokens, s.past, h);
        } else {
          assert Consumers(s.past, h) == {};
          NewTokenIsOk(s.calls[i].req, e.now);
        }
      }
    }
  }

  lemma NewTokenIsOk(req: Request, now: Time)
    requires req.Issue? && NewToken(req.tenant, req.scopes, req.expiresIn, req.maxUses, now).Some?
    ensures var t := NewToken(req.tenant, req.scopes, req.expiresIn, req.maxUses, now).value;
      t.scopes != [] && ScopeTokens(t.scopes) && t.uses == 0 < t.maxUses <= MAX_USES
      && now < t.expires <= now + MAX_TTL
  {
  }

  lemma StepKeepsClients(policy: UriPolicy, s: State, i: CallId, e: Env)
    requires TokensOk(s) && ClientsOk(policy, s) && Enabled(s, Step(i, e))
    requires CallOk(policy, s.db.tokens, s.past, i, s.calls[i])
    ensures ClientsOk(policy, Apply(policy, s, Step(i, e)))
  {
    var s' := Apply(policy, s, Step(i, e));
    StepGrows(policy, s, i, e);
    if s.calls[i].pc.RegisterCreate? && !e.fails {
      CreatedIsOk(policy, s, i, e);
    }
    forall id | id in s'.db.clients ensures ClientOk(policy, s'.db.tokens, s'.past, id, s'.db.clients[id]) {
      if !(s.calls[i].pc.RegisterCreate? && !e.fails && id == e.newClientId) {
        ClientStaysOk(policy, s, s', id, s'.db.clients[id]);
      }
    }
  }

  lemma CreatedIsOk(policy: UriPolicy, s: State, i: CallId, e: Env)
    requires TokensOk(s) && Enabled(s, Step(i, e)) && s.calls[i].pc.RegisterCreate? && !e.fails
    requires CallOk(policy, s.db.tokens, s.past, i, s.calls[i])
    ensures var s' := Apply(policy, s, Step(i, e));
      ClientOk(policy, s'.db.tokens, s'.past, e.newClientId, s'.db.clients[e.newClientId])
  {
    var req := s.calls[i].req;
    var h := Sha256(req.token);
    assert TokenOk(s.db.tokens, s.past, h);
    ProposalIsNormal(policy, req.meta, s.db.tokens[h].scopes);
  }

  lemma StepperStaysOk(policy: UriPolicy, s: State, i: CallId, e: Env)
    requires TokensOk(s) && ClientsOk(policy, s) && Enabled(s, Step(i, e))
    requires CallOk(policy, s.db.tokens, s.past, i, s.calls[i])
    ensures var s' := Apply(policy, s, Step(i, e)); CallOk(policy, s'.db.tokens, s'.past, i, s'.calls[i])
  {
    var s' := Apply(policy, s, Step(i, e));
    var c := s.calls[i];
    StepStaysWellFormed(policy, s.db, c, e);
    if s'.calls[i].pc.DeleteRow? {
      assert ClientOk(policy, s.db.tokens, s.past, c.req.clientId, s.db.clients[c.req.clientId]);
    }
    if s'.calls[i].pc.UpdateSave? {
      var id := c.req.clientId;
      assert ClientOk(policy, s.db.tokens, s.past, id, s.db.clients[id]);
      ReplacementIsNormal(policy, s.db.clients[id], id, c.req.meta);
    }
  }

  lemma StepKeepsCalls(policy: UriPolicy, s: State, i: CallId, e: Env)
    requires TokensOk(s) && ClientsOk(policy, s) && CallsOk(policy, s) && Enabled(s, Step(i, e))
    ensures CallsOk(policy, Apply(policy, s, Step(i, e)))
  {
    var s' := Apply(policy, s, Step(i, e));
    assert CallOk(policy, s.db.tokens, s.past, i, s.calls[i]);
    StepGrows(policy, s, i, e);
    StepperStaysOk(policy, s, i, e);
    forall k | k in s'.calls ensures CallOk(policy, s'.db.tokens, s'.past, k, s'.calls[k]) {
      if k != i {
        OtherCallStaysOk(policy, s, s', i, k, s.calls[k]);
      }
    }
  }

  lemma StepKeepsMade(policy: UriPolicy, s: State, i: CallId, e: Env)
    requires AllMadeOk(s) && Enabled(s, Step(i, e)) && CallOk(policy, s.db.tokens, s.past, i, s.calls[i])
    ensures AllMadeOk(Apply(policy, s, Step(i, e)))
  {
  }

  lemma EventKeepsInv(policy: UriPolicy, s: State, ev: Event)
    requires Inv(policy, s) && Enabled(s, ev)
    ensures Inv(policy, Apply(policy, s, ev))
  {
    if ev.Step? {
      assert CallOk(policy, s.db.tokens, s.past, ev.id, s.calls[ev.id]);
      StepKeepsTokens(policy, s, ev.id, ev.env);
      StepKeepsClients(policy, s, ev.id, ev.env);
      StepKeepsCalls(policy, s, ev.id, ev.env);
      StepKeepsMade(policy, s, ev.id, ev.env);
    } else {
      OthersKeepInv(policy, s, ev);
    }
  }

  lemma OthersKeepInv(policy: UriPolicy, s: State, ev: Event)
    requires Inv(policy, s) && Enabled(s, ev) && !ev.Step?
    ensures Inv(policy, Apply(policy, s, ev))
  {
  }

  lemma {:induction false} RunInv(policy: UriPolicy, run: seq<State>, k: nat)
    requires IsRun(policy, run) && k < |run|
    ensures Inv(policy, run[k])
  {
    if k > 0 {
      RunInv(policy, run, k - 1);
      assert StepAt(policy, run, k - 1);
      var ev :| Enabled(run[k - 1], ev) && run[k] == Apply(policy, run[k - 1], ev);
      EventKeepsInv(policy, run[k - 1], ev);
    }
  }
}
