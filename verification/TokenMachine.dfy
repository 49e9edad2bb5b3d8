/**
 * Any number of concurrent token calls over one database: each step runs one statement of one call,
 * and expiry cleanup (CleanupExpiredTokens) runs between them.
 */
module TokenMachine {
  import opened Common
  import opened Scopes
  import opened TokenTables
  import opened TokenCalls

  type CallId = nat

  /** A refresh token that was stored: its row, the token it replaced and the call that stored it. */
  datatype RefreshMint = RefreshMint(row: RefreshRow, parent: Option<Hash>, owner: CallId)

  datatype AccessMint = AccessMint(row: AccessRow, owner: CallId)

  datatype Consumption = Consumption(owner: CallId, at: Time)

  /** Where the right to issue the next tokens of a family is. */
  datatype Tip = ByCode | ByCall(id: CallId) | ByRow(h: Hash)

  /**
   * What happened to families: condemned, a call began to delete one whose exchange was over; sealed, a delete
   * of the refresh rows of such a family took effect; wiped, a delete of the access rows of a sealed family
   * took effect; slipped, a delete of the family erred.
   */
  datatype Marks = Marks(condemned: set<Family>, sealed: set<Family>, wiped: set<Family>, slipped: set<Family>)

  /** What happened so far; nothing here influences a step. */
  datatype History = History(
    origins: map<Family, CodeRow>,
    refresh: map<Hash, RefreshMint>,
    access: map<Hash, AccessMint>,
    presented: set<Hash>,
    presentedCodes: set<string>,
    consumed: map<Family, Consumption>,
    tips: map<Family, Tip>,
    marks: Marks)

  datatype State = State(db: Db, calls: map<CallId, Call>, now: Time, past: History)

  datatype Event =
    | Begin(id: CallId, req: Request)
    | Step(id: CallId, env: Env)
    | IssueCode(row: CodeRow)
    | CleanCodes
    | CleanAccess
    | CleanRefresh
    | Tick(to: Time)

  ghost function Init(now: Time): State {
    State(Db(map[], map[], map[]), map[], now,
          History(map[], map[], map[], {}, {}, map[], map[], Marks({}, {}, {}, {})))
  }

  // ----- Facts about the past -----

  ghost predicate IsDone(s: State, id: CallId) {
    id in s.calls && s.calls[id].pc.Done?
  }

  ghost predicate WasGranted(s: State, id: CallId) {
    IsDone(s, id) && s.calls[id].pc.outcome.Granted?
  }

  /** The call ended in a server error: an issuance that failed half-way. */
  ghost predicate WasFailed(s: State, id: CallId) {
    IsDone(s, id) && s.calls[id].pc.outcome == Refused(ServerError)
  }

  /** Some call answered with this refresh (access) token. */
  ghost predicate RefreshReturned(s: State, h: Hash) {
    h in s.past.refresh && WasGranted(s, s.past.refresh[h].owner)
  }

  ghost predicate AccessReturned(s: State, h: Hash) {
    h in s.past.access && WasGranted(s, s.past.access[h].owner)
  }

  /** The call may still store tokens of family f. */
  predicate Storing(pc: Pc, f: Family) {
    (pc.StoreAccess? || pc.StoreRefresh?) && pc.g.family == f
  }

  /** The call is exchanging the authorization code of f and has not stored both tokens yet. */
  predicate Exchanging(pc: Pc, f: Family) {
    Storing(pc, f) && pc.g.claim.None?
  }

  ghost predicate NoExchangePending(s: State, f: Family) {
    forall i :: i in s.calls ==> !Exchanging(s.calls[i].pc, f)
  }

  /** No call is in flight. */
  ghost predicate Quiescent(s: State) {
    forall i :: i in s.calls ==> s.calls[i].pc.Done?
  }

  // ----- Steps -----

  /**
   * Tokens are unguessable: one that is stored is presented only after some call returned it, and a
   * new one is none that was ever presented. The same holds for authorization codes.
   */
  ghost predicate MayPresent(s: State, h: Hash) {
    h in s.past.refresh ==> RefreshReturned(s, h)
  }

  ghost predicate Fresh(s: State, h: Hash) {
    h !in s.past.refresh && h !in s.past.access && h !in s.past.presented
  }

  ghost predicate Enabled(s: State, ev: Event) {
    match ev
    case Begin(id, req) =>
      id !in s.calls && (req.Refresh? ==> MayPresent(s, Sha256(req.token)))
    case Step(id, e) =>
      && id in s.calls && !s.calls[id].pc.Done? && WellFormed(s.calls[id])
      && e.now == s.now
      && (s.calls[id].pc.StoreAccess? ==> Fresh(s, Sha256(e.newAccess)))
      && (s.calls[id].pc.StoreRefresh? ==> Fresh(s, Sha256(e.newRefresh)))
    case IssueCode(row) =>
      && row.family !in s.past.origins && !row.used && row.code !in s.past.presentedCodes
      && forall f :: f in s.past.origins ==> s.past.origins[f].code != row.code
    case Tick(to) => s.now <= to
    case _ => true
  }

  ghost function Record(s: State, id: CallId, effect: Effect, pc: Pc): History
    requires id in s.calls
  {
    var h := s.past;
    match effect
    case AddRefresh(t, row) =>
      var parent := if s.calls[id].pc.StoreRefresh? then s.calls[id].pc.g.claim else None;
      h.(refresh := h.refresh[t := RefreshMint(row, parent, id)], tips := h.tips[row.family := ByRow(t)])
    case AddAccess(t, row) =>
      h.(access := h.access[t := AccessMint(row, id)])
    case UseCode(_, code) =>
      if code in s.db.codes then
        var f := s.db.codes[code].family;
        h.(consumed := h.consumed[f := Consumption(id, s.now)], tips := h.tips[f := ByCall(id)])
      else h
    case ClaimRefresh(_, t) =>
      if t in s.db.refresh then h.(tips := h.tips[s.db.refresh[t].family := ByCall(id)]) else h
    case _ => h.(marks := Mark(s, s.calls[id].pc, effect, pc))
  }

  /** The marks after a statement of a call that goes from was to pc. */
  ghost function Mark(s: State, was: Pc, effect: Effect, pc: Pc): Marks {
    var m := s.past.marks;
    if pc.DelRefresh? then
      if NoExchangePending(s, pc.family) then m.(condemned := m.condemned + {pc.family}) else m
    else
      match effect
      case WipeRefresh(f) => if NoExchangePending(s, f) then m.(sealed := m.sealed + {f}) else m
      case WipeAccess(f) => if f in m.sealed then m.(wiped := m.wiped + {f}) else m
      case Nothing => if was.DelRefresh? || was.DelAccess? then m.(slipped := m.slipped + {was.family}) else m
      case _ => m
  }

  ghost function Presented(past: History, req: Request): History {
    match req
    case Refresh(_, token, _, _) => past.(presented := past.presented + {Sha256(token)})
    case Exchange(_, code, _, _, _) => past.(presentedCodes := past.presentedCodes + {code})
    case Revoke(_, _, _, _) => past
  }

  ghost function Apply(s: State, ev: Event): State
    requires Enabled(s, ev)
  {
    match ev
    case Begin(id, req) =>
      s.(calls := s.calls[id := Call(req, Start(req))],
         past := Presented(s.past, req))
    case Step(id, e) =>
      var (effect, pc) := Decide(s.db, s.calls[id], e);
      State(Perform(s.db, effect), s.calls[id := s.calls[id].(pc := pc)], s.now, Record(s, id, effect, pc))
    case IssueCode(row) =>
      s.(db := s.db.(codes := s.db.codes[row.code := row]),
         past := s.past.(origins := s.past.origins[row.family := row], tips := s.past.tips[row.family := ByCode]))
    case CleanCodes => s.(db := s.db.(codes := Keeping(s.db.codes, (r: CodeRow) => r.expires >= s.now)))
    case CleanAccess => s.(db := s.db.(access := Keeping(s.db.access, (r: AccessRow) => r.expires >= s.now)))
    case CleanRefresh => s.(db := s.db.(refresh := Keeping(s.db.refresh, (r: RefreshRow) => r.expires >= s.now)))
    case Tick(to) => s.(now := to)
  }

  ghost predicate Next(s: State, s': State) {
    exists ev :: Enabled(s, ev) && s' == Apply(s, ev)
  }

  /** The k-th state of the run leads to the next. */
  ghost predicate StepAt(run: seq<State>, k: nat) {
    k + 1 < |run| && Next(run[k], run[k + 1])
  }

  /** A run from an empty database. */
  ghost predicate IsRun(run: seq<State>) {
    && |run| > 0
    && (exists now :: run[0] == Init(now))
    && forall k: nat :: k + 1 < |run| ==> StepAt(run, k)
  }

  // ----- The invariant -----

  ghost predicate SameGrant(client: Id, user: Id, scope: string, origin: CodeRow) {
    client == origin.client && user == origin.user && ScopeSet(scope) <= ScopeSet(origin.scope)
  }

  /** Every row is one that was stored or issued, up to its mark. */
  ghost predicate RowsKnown(s: State) {
    && (forall h :: h in s.db.refresh ==>
          h in s.past.refresh && s.db.refresh[h].(revoked := false) == s.past.refresh[h].row)
    && (forall h :: h in s.db.access ==> h in s.past.access && s.db.access[h] == s.past.access[h].row)
    && (forall c :: c in s.db.codes ==>
          var row := s.db.codes[c];
          && row.code == c && row.family in s.past.origins && row.(used := false) == s.past.origins[row.family]
          && (row.used <==> row.family in s.past.consumed))
    && (forall f, g :: f in s.past.origins && g in s.past.origins && s.past.origins[f].code == s.past.origins[g].code
          ==> f == g)
    && (forall f :: f in s.past.origins ==> s.past.origins[f].family == f)
    && s.past.consumed.Keys <= s.past.origins.Keys
    && (forall f :: f in s.past.consumed ==> s.past.consumed[f].at <= s.now)
  }

  /** Grant provenance: every token stored for a family keeps its code's client, user and login. */
  ghost predicate RefreshProvenance(s: State) {
    forall h :: h in s.past.refresh ==>
      var m := s.past.refresh[h];
      && m.row.family in s.past.consumed && m.row.family in s.past.origins
      && var o := s.past.origins[m.row.family];
      && SameGrant(m.row.client, m.row.user, m.row.scope, o)
      && m.row.authTime == o.authTime && m.row.amr == o.amr && !m.row.revoked
      && (m.parent.Some? ==>
            && m.parent.value in s.past.refresh
            && s.past.refresh[m.parent.value].row.family == m.row.family
            && ScopeSet(m.row.scope) <= ScopeSet(s.past.refresh[m.parent.value].row.scope))
  }

  ghost predicate AccessProvenance(s: State) {
    forall h :: h in s.past.access ==>
      var m := s.past.access[h];
      && m.row.family in s.past.origins
      && SameGrant(m.row.client, m.row.user, m.row.scope, s.past.origins[m.row.family])
  }

  /** The claimed token can never be claimed again. */
  ghost predicate Spent(s: State, h: Hash) {
    h in s.past.refresh && (h in s.db.refresh ==> s.db.refresh[h].revoked)
  }

  ghost predicate GrantOk(s: State, i: CallId, req: Request, g: Grant) {
    && g.family in s.past.origins && g.family in s.past.consumed
    && var o := s.past.origins[g.family];
    && SameGrant(g.client, g.user, g.scope, o) && g.authTime == o.authTime && g.amr == o.amr
    && (g.claim.None? ==>
          && req.Exchange? && s.past.consumed[g.family].owner == i && s.past.consumed[g.family].at < o.expires
          && o.code == req.code && o.client == req.client && o.redirectUri == req.redirectUri
          && PkceHolds(o, req.verifier))
    && (g.claim.Some? ==>
          && Spent(s, g.claim.value) && RefreshReturned(s, g.claim.value)
          && s.past.refresh[g.claim.value].row.family == g.family
          && ScopeSet(g.scope) <= ScopeSet(s.past.refresh[g.claim.value].row.scope))
  }

  ghost predicate AccessBy(s: State, i: CallId, f: Family, a: Hash) {
    a in s.past.access && s.past.access[a].owner == i && s.past.access[a].row.family == f
  }

  ghost predicate RefreshBy(s: State, i: CallId, g: Grant, r: Hash) {
    r in s.past.refresh && s.past.refresh[r].owner == i && s.past.refresh[r].row.family == g.family
    && s.past.refresh[r].parent == g.claim
  }

  ghost predicate TipIs(s: State, f: Family, tip: Tip) {
    f in s.past.tips && s.past.tips[f] == tip
  }

  /** The local variables of a call agree with the past. */
  ghost predicate CallOk(s: State, i: CallId, c: Call) {
    && WellFormed(c)
    && (c.req.Refresh? ==> Sha256(c.req.token) in s.past.presented && MayPresent(s, Sha256(c.req.token)))
    && (c.req.Exchange? ==> c.req.code in s.past.presentedCodes)
    && match c.pc
       case CodeRead => !Usable(s.db.codes, c.req.tenant, c.req.code)
       case RefreshClaim(row, scope) =>
         var h := Sha256(c.req.token);
         && h in s.past.refresh && s.past.refresh[h].row == row
         && ScopeSet(scope) <= ScopeSet(row.scope)
       case StoreAccess(g) => GrantOk(s, i, c.req, g) && TipIs(s, g.family, ByCall(i))
       case StoreRefresh(g, a) =>
         GrantOk(s, i, c.req, g) && TipIs(s, g.family, ByCall(i)) && AccessBy(s, i, g.family, a)
       case SignId(g, a, r) => GrantOk(s, i, c.req, g) && AccessBy(s, i, g.family, a) && RefreshBy(s, i, g, r)
       case ReRead(g, a, r) => GrantOk(s, i, c.req, g) && AccessBy(s, i, g.family, a) && RefreshBy(s, i, g, r)
       case DelRefresh(f) => f in s.past.consumed
       case DelAccess(f) => f in s.past.consumed
       case Done(Granted(a, r, scope)) =>
         && a in s.past.access && s.past.access[a].owner == i && r in s.past.refresh && s.past.refresh[r].owner == i
         && (c.req.Refresh? ==> s.past.refresh[r].parent == Some(Sha256(c.req.token)))
         && (c.req.Exchange? ==>
               exists f :: f in s.past.consumed && s.past.consumed[f].owner == i && GrantedFor(s, f, c.req, r))
       case _ => true
  }

  /** The exchange of the code of f that was answered with refresh token r met every requirement. */
  ghost predicate GrantedFor(s: State, f: Family, req: Request, r: Hash) {
    && req.Exchange? && f in s.past.origins && f.tenant == req.tenant && f in s.past.consumed
    && r in s.past.refresh && s.past.refresh[r].row.family == f
    && var o := s.past.origins[f];
    && o.code == req.code && o.client == req.client && o.redirectUri == req.redirectUri
    && PkceHolds(o, req.verifier) && s.past.consumed[f].at < o.expires
  }

  ghost predicate CallsOk(s: State) {
    && s.past.tips.Keys == s.past.origins.Keys
    && forall i :: i in s.calls ==> CallOk(s, i, s.calls[i])
  }

  /** The call that stored a token is past the statement that stored it. */
  ghost predicate HasStoredRefresh(pc: Pc, h: Hash) {
    match pc
    case SignId(_, _, r) => r == h
    case ReRead(_, _, r) => r == h
    case DelRefresh(_) => true
    case DelAccess(_) => true
    case Done(Granted(_, r, _)) => r == h
    case Done(_) => true
    case _ => false
  }

  ghost predicate HasStoredAccess(pc: Pc, h: Hash) {
    match pc
    case StoreRefresh(_, a) => a == h
    case SignId(_, a, _) => a == h
    case ReRead(_, a, _) => a == h
    case DelRefresh(_) => true
    case DelAccess(_) => true
    case Done(Granted(a, _, _)) => a == h
    case Done(_) => true
    case _ => false
  }

  ghost predicate OwnersOk(s: State) {
    && (forall h :: h in s.past.refresh ==>
          s.past.refresh[h].owner in s.calls && HasStoredRefresh(s.calls[s.past.refresh[h].owner].pc, h))
    && (forall h :: h in s.past.access ==>
          s.past.access[h].owner in s.calls && HasStoredAccess(s.calls[s.past.access[h].owner].pc, h))
    && (forall f :: f in s.past.consumed && f in s.past.origins ==>
          && s.past.consumed[f].owner in s.calls && s.calls[s.past.consumed[f].owner].req.Exchange?
          && s.calls[s.past.consumed[f].owner].req.code == s.past.origins[f].code)
  }

  /** Each family has one tip, and whoever can issue its next tokens is that tip. */
  ghost predicate TipsOk(s: State) {
    && (forall h :: h in s.db.refresh && !s.db.refresh[h].revoked ==> TipIs(s, s.db.refresh[h].family, ByRow(h)))
    && (forall c :: c in s.db.codes && !s.db.codes[c].used ==> TipIs(s, s.db.codes[c].family, ByCode))
  }

  /** The call is about to store a second child of the parent of m. */
  predicate SameParent(pc: Pc, m: RefreshMint) {
    Storing(pc, m.row.family) && m.parent.Some? && pc.g.claim == m.parent
  }

  ghost predicate Siblings(s: State, h: Hash, k: Hash)
    requires h in s.past.refresh && k in s.past.refresh
  {
    var m, n := s.past.refresh[h], s.past.refresh[k];
    m.row.family == n.row.family && m.parent == n.parent
  }

  /** Refresh tokens form one chain per family: one root, and at most one child each. */
  ghost predicate ChainsOk(s: State) {
    && (forall h :: h in s.past.refresh && s.past.refresh[h].parent.Some? ==>
          Spent(s, s.past.refresh[h].parent.value))
    && (forall h, i :: h in s.past.refresh && i in s.calls ==>
          !Exchanging(s.calls[i].pc, s.past.refresh[h].row.family))
    && (forall h, i :: h in s.past.refresh && i in s.calls ==> !SameParent(s.calls[i].pc, s.past.refresh[h]))
    && (forall h, k :: h in s.past.refresh && k in s.past.refresh && Siblings(s, h, k) ==> h == k)
  }

  /** Some call is about to delete the refresh rows of f. */
  ghost predicate Wiping(s: State, f: Family) {
    exists j :: j in s.calls && s.calls[j].pc == DelRefresh(f)
  }

  /** Some call is about to delete the access rows of f. */
  ghost predicate WipingAccess(s: State, f: Family) {
    Wiping(s, f) || exists j :: j in s.calls && s.calls[j].pc == DelAccess(f)
  }

  /** The call will re-read its claimed token and, since that is gone, delete its whole family. */
  ghost predicate Doomed(s: State, i: CallId) {
    && i in s.calls
    && var pc := s.calls[i].pc;
    && (pc.StoreRefresh? || pc.SignId? || pc.ReRead?)
    && pc.g.claim.Some? && pc.g.claim.value !in s.db.refresh
  }

  /** The call will not answer with tokens. */
  ghost predicate NeverGrants(s: State, i: CallId) {
    Doomed(s, i) || (i in s.calls && GivesUp(s.calls[i].pc))
  }

  predicate GivesUp(pc: Pc) {
    pc.DelRefresh? || pc.DelAccess? || (pc.Done? && !pc.outcome.Granted?)
  }

  /** A refresh row left in a revoked family: never returned and, unless a delete erred, orphaned or about to
      be deleted. */
  ghost predicate LeftRefresh(s: State, f: Family, h: Hash) {
    && h in s.past.refresh
    && var owner := s.past.refresh[h].owner;
    && NeverGrants(s, owner)
    && (f !in s.past.marks.slipped ==> WasFailed(s, owner) || Doomed(s, owner) || Wiping(s, f))
  }

  ghost predicate LeftAccess(s: State, f: Family, h: Hash) {
    && h in s.past.access
    && var owner := s.past.access[h].owner;
    && (f in s.past.marks.wiped ==> NeverGrants(s, owner))
    && (f !in s.past.marks.slipped ==> WasFailed(s, owner) || Doomed(s, owner) || WipingAccess(s, f))
  }

  /** Family f was revoked after its exchange had stored its tokens: what remains of f is on its way out. */
  ghost predicate SealHolds(s: State, f: Family) {
    && f in s.past.consumed && NoExchangePending(s, f)
    && (forall i :: i in s.calls ==> NoClaimLeft(s, s.calls[i].pc, f))
    && (forall h :: h in s.db.refresh && s.db.refresh[h].family == f ==> LeftRefresh(s, f, h))
    && (forall h :: h in s.db.access && s.db.access[h].family == f ==> LeftAccess(s, f, h))
  }

  /** A call that is issuing for f has lost the row it must find again, or already holds deleted tokens. */
  ghost predicate NoClaimLeft(s: State, pc: Pc, f: Family) {
    (pc.StoreAccess? || pc.StoreRefresh? || pc.SignId? || pc.ReRead?) && pc.g.family == f ==>
      if pc.g.claim.Some? then pc.g.claim.value !in s.db.refresh
      else pc.SignId? ==> pc.refresh !in s.db.refresh
  }

  ghost predicate SealsOk(s: State) {
    forall f :: f in s.past.marks.sealed ==> SealHolds(s, f)
  }

  ghost predicate CondemnedFamilyOk(s: State, f: Family) {
    && f in s.past.consumed && NoExchangePending(s, f)
    && (f in s.past.marks.slipped || f in s.past.marks.sealed || Wiping(s, f))
  }

  ghost predicate CondemnedOk(s: State) {
    && s.past.marks.wiped <= s.past.marks.sealed
    && forall f :: f in s.past.marks.condemned ==> CondemnedFamilyOk(s, f)
  }

  /** The parts of the invariant. Each is proved on its own. */
  datatype Part = Rows | Refreshes | Accesses | Calls | Owners | Tips | Chains | Seals | Condemnations

  ghost predicate Holds(s: State, part: Part) {
    match part
    case Rows => RowsKnown(s)
    case Refreshes => RefreshProvenance(s)
    case Accesses => AccessProvenance(s)
    case Calls => CallsOk(s)
    case Owners => OwnersOk(s)
    case Tips => TipsOk(s)
    case Chains => ChainsOk(s)
    case Seals => SealsOk(s)
    case Condemnations => CondemnedOk(s)
  }

  ghost predicate Inv(s: State) {
    forall part :: Holds(s, part)
  }

  lemma InvParts(s: State)
    requires Inv(s)
    ensures RowsKnown(s) && RefreshProvenance(s) && AccessProvenance(s) && CallsOk(s) && OwnersOk(s)
    ensures TipsOk(s) && ChainsOk(s) && SealsOk(s) && CondemnedOk(s)
  {
    assert Holds(s, Rows) && Holds(s, Refreshes) && Holds(s, Accesses) && Holds(s, Calls) && Holds(s, Owners);
    assert Holds(s, Tips) && Holds(s, Chains) && Holds(s, Seals) && Holds(s, Condemnations);
  }

  lemma PartsInv(s: State)
    requires RowsKnown(s) && RefreshProvenance(s) && AccessProvenance(s) && CallsOk(s) && OwnersOk(s)
    requires TipsOk(s) && ChainsOk(s) && SealsOk(s) && CondemnedOk(s)
    ensures Inv(s)
  {
  }
}
