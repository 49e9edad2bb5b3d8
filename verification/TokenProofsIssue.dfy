/** The steps that claim a refresh token, consume a code or store a token keep the invariant. */
module TokenProofsIssue {
  import opened Common
  import opened Scopes
  import opened TokenTables
  import opened TokenCalls
  import opened TokenMachine
  import opened TokenProofs

  // ----- Claiming a refresh token -----

  ghost predicate CanClaim(s: State, id: CallId) {
    && id in s.calls && s.calls[id].pc.RefreshClaim? && s.calls[id].req.Refresh?
    && Claimable(s.db.refresh, s.calls[id].req.tenant, Sha256(s.calls[id].req.token))
  }

  ghost function AfterClaim(s: State, id: CallId): State
    requires CanClaim(s, id)
  {
    var c := s.calls[id];
    var h := Sha256(c.req.token);
    State(
      s.db.(refresh := s.db.refresh[h := s.db.refresh[h].(revoked := true)]),
      s.calls[id := c.(pc := StoreAccess(RefreshGrant(c.pc.row, c.pc.scope, h)))],
      s.now,
      s.past.(tips := s.past.tips[s.db.refresh[h].family := ByCall(id)]))
  }

  lemma ClaimKeepsRows(s: State, id: CallId)
    requires CanClaim(s, id) && RowsKnown(s) && TipsOk(s)
    ensures RowsKnown(AfterClaim(s, id)) && TipsOk(AfterClaim(s, id))
  {
  }

  lemma ClaimGrows(s: State, id: CallId)
    requires CanClaim(s, id)
    ensures Grows(s, AfterClaim(s, id))
  {
  }

  lemma ClaimKeepsOwnCall(s: State, id: CallId)
    requires CanClaim(s, id) && RowsKnown(s) && RefreshProvenance(s) && CallOk(s, id, s.calls[id])
    requires s.past.tips.Keys == s.past.origins.Keys
    ensures CallOk(AfterClaim(s, id), id, AfterClaim(s, id).calls[id])
  {
  }

  lemma ClaimKeepsOtherTips(s: State, id: CallId)
    requires CanClaim(s, id) && TipsOk(s)
    ensures OthersKeepTips(s, AfterClaim(s, id), id)
  {
  }

  lemma ClaimKeepsCalls(s: State, id: CallId)
    requires CanClaim(s, id) && CallsOk(s) && OthersKeepTips(s, AfterClaim(s, id), id)
    requires s.db.refresh[Sha256(s.calls[id].req.token)].family in s.past.tips
    requires CallOk(AfterClaim(s, id), id, AfterClaim(s, id).calls[id])
    ensures CallsOk(AfterClaim(s, id))
  {
    ClaimGrows(s, id);
    OthersKeepCallOk(s, AfterClaim(s, id), id);
  }

  lemma ClaimKeepsChains(s: State, id: CallId)
    requires CanClaim(s, id) && ChainsOk(s) && RowsKnown(s)
    ensures ChainsOk(AfterClaim(s, id))
  {
    var s' := AfterClaim(s, id);
    var h := Sha256(s.calls[id].req.token);
    assert forall k, m :: k in s.past.refresh && m in s.past.refresh && Siblings(s', k, m) ==> Siblings(s, k, m);
    assert forall k :: Spent(s, k) ==> Spent(s', k);
    assert !Spent(s, h);
  }

  lemma ClaimKeepsOwners(s: State, id: CallId)
    requires CanClaim(s, id) && OwnersOk(s)
    ensures OwnersOk(AfterClaim(s, id))
  {
  }

  /** A token that was returned is not a row of a revoked family, so no sealed family is claimed. */
  lemma ClaimIsUnsealed(s: State, id: CallId)
    requires CanClaim(s, id) && CallsOk(s) && SealsOk(s)
    ensures s.db.refresh[Sha256(s.calls[id].req.token)].family !in s.past.marks.sealed
  {
  }

  lemma ClaimKeepsInv(s: State, id: CallId)
    requires Inv(s) && CanClaim(s, id)
    ensures Inv(AfterClaim(s, id))
  {
    InvParts(s);
    var s' := AfterClaim(s, id);
    ClaimKeepsRows(s, id);
    assert TipIs(s, s.db.refresh[Sha256(s.calls[id].req.token)].family, ByRow(Sha256(s.calls[id].req.token)));
    ClaimKeepsOwnCall(s, id);
    ClaimKeepsOtherTips(s, id);
    ClaimKeepsCalls(s, id);
    ClaimKeepsChains(s, id);
    ClaimKeepsOwners(s, id);
    ClaimIsUnsealed(s, id);
    ClaimKeepsSeals(s, id);
    assert RefreshProvenance(s') && AccessProvenance(s');
    PartsInv(AfterClaim(s, id));
  }

  lemma ClaimExtends(s: State, id: CallId)
    requires CanClaim(s, id) && CallsOk(s) && RowsKnown(s)
    ensures Extends(s, AfterClaim(s, id), id)
    ensures s.calls[id].pc.row.family == s.db.refresh[Sha256(s.calls[id].req.token)].family
  {
    assert CallOk(s, id, s.calls[id]);
  }

  lemma ClaimKeepsSeals(s: State, id: CallId)
    requires CanClaim(s, id) && CallsOk(s) && RowsKnown(s) && SealsOk(s) && CondemnedOk(s)
    ensures SealsOk(AfterClaim(s, id)) && CondemnedOk(AfterClaim(s, id))
  {
    var s' := AfterClaim(s, id);
    ClaimIsUnsealed(s, id);
    ClaimExtends(s, id);
    forall f | f in s.past.marks.sealed ensures SealHolds(s', f) {
      ExtendKeepsSeal(s, s', id, f);
    }
    ExtendKeepsCondemned(s, s', id);
  }

  // ----- Consuming an authorization code -----

  ghost predicate CanConsume(s: State, id: CallId, e: Env) {
    && id in s.calls && s.calls[id].pc.CodeConsume? && s.calls[id].req.Exchange? && e.now == s.now
    && Usable(s.db.codes, s.calls[id].req.tenant, s.calls[id].req.code)
  }

  ghost function CodeOf(s: State, id: CallId, e: Env): CodeRow
    requires CanConsume(s, id, e)
  {
    s.db.codes[s.calls[id].req.code]
  }

  ghost function AfterUse(s: State, id: CallId, e: Env): State
    requires CanConsume(s, id, e)
  {
    var c := s.calls[id];
    var code := CodeOf(s, id, e);
    State(
      s.db.(codes := s.db.codes[c.req.code := code.(used := true)]),
      s.calls[id := c.(pc := AfterConsume(code, c.req, e))],
      s.now,
      s.past.(consumed := s.past.consumed[code.family := Consumption(id, s.now)],
              tips := s.past.tips[code.family := ByCall(id)]))
  }

  lemma ConsumeIsFirst(s: State, id: CallId, e: Env)
    requires CanConsume(s, id, e) && RowsKnown(s) && TipsOk(s)
    ensures CodeOf(s, id, e).family !in s.past.consumed && TipIs(s, CodeOf(s, id, e).family, ByCode)
    ensures CodeOf(s, id, e).code == s.calls[id].req.code
  {
  }

  lemma ConsumeGrows(s: State, id: CallId, e: Env)
    requires CanConsume(s, id, e) && CodeOf(s, id, e).family !in s.past.consumed
    ensures Grows(s, AfterUse(s, id, e))
  {
  }

  lemma ConsumeKeepsRows(s: State, id: CallId, e: Env)
    requires CanConsume(s, id, e) && RowsKnown(s)
    ensures RowsKnown(AfterUse(s, id, e))
  {
  }

  lemma ConsumeKeepsTips(s: State, id: CallId, e: Env)
    requires CanConsume(s, id, e) && RowsKnown(s) && TipsOk(s)
    ensures TipsOk(AfterUse(s, id, e)) && OthersKeepTips(s, AfterUse(s, id, e), id)
  {
  }

  /** What a consumed code leads to: its deletion, a refusal, or a grant after every check was met. */
  lemma ConsumeChecks(code: CodeRow, req: Request, e: Env)
    requires req.Exchange?
    ensures var pc := AfterConsume(code, req, e);
      || pc == CodeDropExpired
      || (pc.Done? && pc.outcome.Refused?)
      || (pc == StoreAccess(Grant(code.family, code.client, code.user, code.scope, code.authTime, code.amr, None))
          && e.now < code.expires && code.client == req.client && code.redirectUri == req.redirectUri
          && PkceHolds(code, req.verifier))
  {
  }

  /** The code's grant is the one its consumer holds. */
  lemma ConsumerHoldsGrant(s: State, id: CallId, req: Request, code: CodeRow)
    requires req.Exchange? && code.family in s.past.origins && code.(used := false) == s.past.origins[code.family]
    requires code.family in s.past.consumed && s.past.consumed[code.family].owner == id
    requires s.past.consumed[code.family].at < code.expires && code.code == req.code && code.client == req.client
    requires code.redirectUri == req.redirectUri && PkceHolds(code, req.verifier)
    ensures var g := Grant(code.family, code.client, code.user, code.scope, code.authTime, code.amr, None);
      GrantOk(s, id, req, g)
  {
  }

  lemma ConsumeKeepsOwnCall(s: State, id: CallId, e: Env)
    requires CanConsume(s, id, e) && RowsKnown(s) && CallOk(s, id, s.calls[id])
    ensures CallOk(AfterUse(s, id, e), id, AfterUse(s, id, e).calls[id])
  {
    var code, req := CodeOf(s, id, e), s.calls[id].req;
    ConsumeChecks(code, req, e);
    if AfterConsume(code, req, e).StoreAccess? {
      ConsumerHoldsGrant(AfterUse(s, id, e), id, req, code);
    }
  }

  lemma ConsumeKeepsCalls(s: State, id: CallId, e: Env)
    requires CanConsume(s, id, e) && CallsOk(s) && OthersKeepTips(s, AfterUse(s, id, e), id)
    requires CodeOf(s, id, e).family !in s.past.consumed && CodeOf(s, id, e).family in s.past.tips
    requires CallOk(AfterUse(s, id, e), id, AfterUse(s, id, e).calls[id])
    ensures CallsOk(AfterUse(s, id, e))
  {
    ConsumeGrows(s, id, e);
    OthersKeepCallOk(s, AfterUse(s, id, e), id);
  }

  lemma ConsumeKeepsOwners(s: State, id: CallId, e: Env)
    requires CanConsume(s, id, e) && OwnersOk(s) && RowsKnown(s)
    ensures OwnersOk(AfterUse(s, id, e))
  {
  }

  lemma ConsumeKeepsChains(s: State, id: CallId, e: Env)
    requires CanConsume(s, id, e) && ChainsOk(s) && RefreshProvenance(s)
    requires CodeOf(s, id, e).family !in s.past.consumed
    ensures ChainsOk(AfterUse(s, id, e)) && RefreshProvenance(AfterUse(s, id, e))
  {
    var s' := AfterUse(s, id, e);
    assert forall h, k :: h in s.past.refresh && k in s.past.refresh && Siblings(s', h, k) ==> Siblings(s, h, k);
    assert forall h :: Spent(s, h) ==> Spent(s', h);
  }

  lemma ConsumeExtends(s: State, id: CallId, e: Env)
    requires CanConsume(s, id, e) && CodeOf(s, id, e).family !in s.past.consumed
    ensures Extends(s, AfterUse(s, id, e), id)
  {
  }

  /** The family of a code that was not consumed before is not condemned, and the call is not done. */
  lemma ConsumerIsNew(s: State, id: CallId, e: Env, f: Family)
    requires CanConsume(s, id, e) && CodeOf(s, id, e).family !in s.past.consumed && f in s.past.consumed
    ensures var s' := AfterUse(s, id, e);
      !WasGranted(s', id) && !Exchanging(s'.calls[id].pc, f) && NoClaimLeft(s', s'.calls[id].pc, f)
  {
  }

  lemma ConsumeKeepsSeals(s: State, id: CallId, e: Env)
    requires CanConsume(s, id, e) && CallsOk(s) && SealsOk(s) && CondemnedOk(s)
    requires CodeOf(s, id, e).family !in s.past.consumed
    ensures SealsOk(AfterUse(s, id, e)) && CondemnedOk(AfterUse(s, id, e))
  {
    var s' := AfterUse(s, id, e);
    ConsumeExtends(s, id, e);
    forall f | f in s.past.marks.sealed ensures SealHolds(s', f) {
      assert SealHolds(s, f);
      ConsumerIsNew(s, id, e, f);
      ExtendKeepsSeal(s, s', id, f);
    }
    forall f | f in s.past.marks.condemned ensures !Exchanging(s'.calls[id].pc, f) {
      ConsumerIsNew(s, id, e, f);
    }
    ExtendKeepsCondemned(s, s', id);
  }

  lemma ConsumeKeepsInv(s: State, id: CallId, e: Env)
    requires Inv(s) && CanConsume(s, id, e)
    ensures Inv(AfterUse(s, id, e))
  {
    InvParts(s);
    ConsumeIsFirst(s, id, e);
    ConsumeKeepsRows(s, id, e);
    ConsumeKeepsTips(s, id, e);
    ConsumeKeepsOwnCall(s, id, e);
    ConsumeKeepsCalls(s, id, e);
    ConsumeKeepsOwners(s, id, e);
    ConsumeKeepsChains(s, id, e);
    ConsumeKeepsSeals(s, id, e);
    assert AccessProvenance(AfterUse(s, id, e));
    PartsInv(AfterUse(s, id, e));
  }

  // ----- Storing an access token -----

  ghost predicate CanStoreAccess(s: State, id: CallId, a: Hash, row: AccessRow) {
    && id in s.calls && s.calls[id].pc.StoreAccess? && Fresh(s, a)
    && var g := s.calls[id].pc.g;
    row.family == g.family && row.client == g.client && row.user == g.user && row.scope == g.scope
  }

  ghost function AfterStoreAccess(s: State, id: CallId, a: Hash, row: AccessRow): State
    requires CanStoreAccess(s, id, a, row)
  {
    State(
      s.db.(access := s.db.access[a := row]),
      s.calls[id := s.calls[id].(pc := StoreRefresh(s.calls[id].pc.g, a))],
      s.now,
      s.past.(access := s.past.access[a := AccessMint(row, id)]))
  }

  lemma StoreAccessGrows(s: State, id: CallId, a: Hash, row: AccessRow)
    requires CanStoreAccess(s, id, a, row)
    ensures Grows(s, AfterStoreAccess(s, id, a, row))
  {
  }

  lemma StoreAccessKeepsOwnCall(s: State, id: CallId, a: Hash, row: AccessRow)
    requires CanStoreAccess(s, id, a, row) && CallOk(s, id, s.calls[id])
    ensures CallOk(AfterStoreAccess(s, id, a, row), id, AfterStoreAccess(s, id, a, row).calls[id])
  {
  }

  lemma StoreAccessKeepsCalls(s: State, id: CallId, a: Hash, row: AccessRow)
    requires CanStoreAccess(s, id, a, row) && CallsOk(s)
    requires CallOk(AfterStoreAccess(s, id, a, row), id, AfterStoreAccess(s, id, a, row).calls[id])
    ensures CallsOk(AfterStoreAccess(s, id, a, row))
  {
    StoreAccessGrows(s, id, a, row);
    OthersKeepCallOk(s, AfterStoreAccess(s, id, a, row), id);
  }

  lemma StoreAccessKeepsOwners(s: State, id: CallId, a: Hash, row: AccessRow)
    requires CanStoreAccess(s, id, a, row) && OwnersOk(s)
    ensures OwnersOk(AfterStoreAccess(s, id, a, row))
  {
  }

  lemma StoreAccessKeepsRows(s: State, id: CallId, a: Hash, row: AccessRow)
    requires CanStoreAccess(s, id, a, row) && RowsKnown(s) && AccessProvenance(s) && CallOk(s, id, s.calls[id])
    ensures RowsKnown(AfterStoreAccess(s, id, a, row)) && AccessProvenance(AfterStoreAccess(s, id, a, row))
  {
  }

  lemma StoreAccessKeepsChains(s: State, id: CallId, a: Hash, row: AccessRow)
    requires CanStoreAccess(s, id, a, row) && ChainsOk(s)
    ensures ChainsOk(AfterStoreAccess(s, id, a, row))
  {
  }

  lemma StoreAccessKeepsSeals(s: State, id: CallId, a: Hash, row: AccessRow)
    requires CanStoreAccess(s, id, a, row) && CallsOk(s) && SealsOk(s) && CondemnedOk(s)
    ensures SealsOk(AfterStoreAccess(s, id, a, row)) && CondemnedOk(AfterStoreAccess(s, id, a, row))
  {
    var s' := AfterStoreAccess(s, id, a, row);
    assert Extends(s, s', id);
    forall f | f in s.past.marks.sealed ensures SealHolds(s', f) {
      assert SealHolds(s, f);
      assert NoClaimLeft(s, s.calls[id].pc, f) && !Exchanging(s.calls[id].pc, f);
      assert row.family == f ==> Doomed(s', id) && LeftAccess(s', f, a);
      ExtendKeepsSeal(s, s', id, f);
    }
    assert forall f :: f in s.past.marks.condemned ==> NoExchangePending(s, f) && !Exchanging(s.calls[id].pc, f);
    ExtendKeepsCondemned(s, s', id);
  }

  lemma StoreAccessKeepsInv(s: State, id: CallId, a: Hash, row: AccessRow)
    requires Inv(s) && CanStoreAccess(s, id, a, row)
    ensures Inv(AfterStoreAccess(s, id, a, row))
  {
    InvParts(s);
    StoreAccessKeepsOwnCall(s, id, a, row);
    StoreAccessKeepsCalls(s, id, a, row);
    StoreAccessKeepsOwners(s, id, a, row);
    StoreAccessKeepsRows(s, id, a, row);
    StoreAccessKeepsChains(s, id, a, row);
    StoreAccessKeepsSeals(s, id, a, row);
    var s' := AfterStoreAccess(s, id, a, row);
    assert forall f, t :: TipIs(s, f, t) ==> TipIs(s', f, t);
    assert RefreshProvenance(s') && TipsOk(s');
    PartsInv(AfterStoreAccess(s, id, a, row));
  }

  // ----- Storing a refresh token -----

  ghost predicate CanStoreRefresh(s: State, id: CallId, r: Hash, row: RefreshRow) {
    && id in s.calls && s.calls[id].pc.StoreRefresh? && Fresh(s, r)
    && var g := s.calls[id].pc.g;
    && row.family == g.family && row.client == g.client && row.user == g.user && row.scope == g.scope
    && row.authTime == g.authTime && row.amr == g.amr && !row.revoked
  }

  ghost function AfterStoreRefresh(s: State, id: CallId, r: Hash, row: RefreshRow): State
    requires CanStoreRefresh(s, id, r, row)
  {
    var pc := s.calls[id].pc;
    State(
      s.db.(refresh := s.db.refresh[r := row]),
      s.calls[id := s.calls[id].(pc := SignId(pc.g, pc.access, r))],
      s.now,
      s.past.(refresh := s.past.refresh[r := RefreshMint(row, pc.g.claim, id)],
              tips := s.past.tips[row.family := ByRow(r)]))
  }

  lemma StoreRefreshGrows(s: State, id: CallId, r: Hash, row: RefreshRow)
    requires CanStoreRefresh(s, id, r, row)
    ensures Grows(s, AfterStoreRefresh(s, id, r, row))
  {
  }

  lemma StoreRefreshKeepsOwnCall(s: State, id: CallId, r: Hash, row: RefreshRow)
    requires CanStoreRefresh(s, id, r, row) && CallOk(s, id, s.calls[id])
    ensures CallOk(AfterStoreRefresh(s, id, r, row), id, AfterStoreRefresh(s, id, r, row).calls[id])
  {
  }

  lemma StoreRefreshKeepsCalls(s: State, id: CallId, r: Hash, row: RefreshRow)
    requires CanStoreRefresh(s, id, r, row) && CallsOk(s) && OthersKeepTips(s, AfterStoreRefresh(s, id, r, row), id)
    requires row.family in s.past.tips
    requires CallOk(AfterStoreRefresh(s, id, r, row), id, AfterStoreRefresh(s, id, r, row).calls[id])
    ensures CallsOk(AfterStoreRefresh(s, id, r, row))
  {
    StoreRefreshGrows(s, id, r, row);
    OthersKeepCallOk(s, AfterStoreRefresh(s, id, r, row), id);
  }

  lemma StoreRefreshKeepsOwners(s: State, id: CallId, r: Hash, row: RefreshRow)
    requires CanStoreRefresh(s, id, r, row) && OwnersOk(s)
    ensures OwnersOk(AfterStoreRefresh(s, id, r, row))
  {
  }

  lemma StoreRefreshKeepsRows(s: State, id: CallId, r: Hash, row: RefreshRow)
    requires CanStoreRefresh(s, id, r, row) && RowsKnown(s) && TipsOk(s) && TipIs(s, row.family, ByCall(id))
    ensures RowsKnown(AfterStoreRefresh(s, id, r, row)) && TipsOk(AfterStoreRefresh(s, id, r, row))
    ensures OthersKeepTips(s, AfterStoreRefresh(s, id, r, row), id)
  {
  }

  lemma StoreRefreshKeepsProvenance(s: State, id: CallId, r: Hash, row: RefreshRow)
    requires CanStoreRefresh(s, id, r, row) && RefreshProvenance(s) && CallOk(s, id, s.calls[id])
    ensures RefreshProvenance(AfterStoreRefresh(s, id, r, row))
  {
  }

  lemma StoreRefreshAlone(s: State, id: CallId, r: Hash, row: RefreshRow, i: CallId)
    requires CanStoreRefresh(s, id, r, row) && CallsOk(s) && i in s.calls && i != id
    ensures !Storing(s.calls[i].pc, row.family)
  {
  }

  lemma StoreRefreshKeepsChains(s: State, id: CallId, r: Hash, row: RefreshRow)
    requires CanStoreRefresh(s, id, r, row) && ChainsOk(s)
    requires forall i :: i in s.calls && i != id ==> !Storing(s.calls[i].pc, row.family)
    requires s.calls[id].pc.g.claim.Some? ==> Spent(s, s.calls[id].pc.g.claim.value)
    ensures ChainsOk(AfterStoreRefresh(s, id, r, row))
  {
  }

  lemma StoreRefreshExtends(s: State, id: CallId, r: Hash, row: RefreshRow)
    requires CanStoreRefresh(s, id, r, row) && CallOk(s, id, s.calls[id])
    ensures Extends(s, AfterStoreRefresh(s, id, r, row), id)
  {
  }

  lemma StoreRefreshKeepsSeal(s: State, id: CallId, r: Hash, row: RefreshRow, f: Family)
    requires CanStoreRefresh(s, id, r, row) && CallOk(s, id, s.calls[id]) && CallsOk(s) && SealHolds(s, f)
    ensures SealHolds(AfterStoreRefresh(s, id, r, row), f)
  {
    var s' := AfterStoreRefresh(s, id, r, row);
    StoreRefreshExtends(s, id, r, row);
    assert NoClaimLeft(s, s.calls[id].pc, f) && !Exchanging(s.calls[id].pc, f);
    if row.family == f {
      assert Doomed(s', id);
      assert LeftRefresh(s', f, r);
    }
    ExtendKeepsSeal(s, s', id, f);
  }

  lemma StoreRefreshKeepsSeals(s: State, id: CallId, r: Hash, row: RefreshRow)
    requires CanStoreRefresh(s, id, r, row) && CallsOk(s) && SealsOk(s) && CondemnedOk(s)
    ensures SealsOk(AfterStoreRefresh(s, id, r, row)) && CondemnedOk(AfterStoreRefresh(s, id, r, row))
  {
    forall f | f in s.past.marks.sealed ensures SealHolds(AfterStoreRefresh(s, id, r, row), f) {
      StoreRefreshKeepsSeal(s, id, r, row, f);
    }
    StoreRefreshExtends(s, id, r, row);
    ExtendKeepsCondemned(s, AfterStoreRefresh(s, id, r, row), id);
  }

  lemma StoreRefreshKeepsInv(s: State, id: CallId, r: Hash, row: RefreshRow)
    requires Inv(s) && CanStoreRefresh(s, id, r, row)
    ensures Inv(AfterStoreRefresh(s, id, r, row))
  {
    InvParts(s);
    assert CallOk(s, id, s.calls[id]);
    forall i | i in s.calls && i != id ensures !Storing(s.calls[i].pc, row.family) {
      StoreRefreshAlone(s, id, r, row, i);
    }
    StoreRefreshKeepsOwnCall(s, id, r, row);
    StoreRefreshKeepsRows(s, id, r, row);
    StoreRefreshKeepsCalls(s, id, r, row);
    StoreRefreshKeepsOwners(s, id, r, row);
    StoreRefreshKeepsProvenance(s, id, r, row);
    StoreRefreshKeepsChains(s, id, r, row);
    StoreRefreshKeepsSeals(s, id, r, row);
    assert AccessProvenance(AfterStoreRefresh(s, id, r, row));
    PartsInv(AfterStoreRefresh(s, id, r, row));
  }
}
