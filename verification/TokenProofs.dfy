/** Elementary changes of a state, each of which keeps the invariant of TokenMachine. */
module TokenProofs {
  import opened Common
  import opened Scopes
  import opened TokenTables
  import opened TokenCalls
  import opened TokenMachine

  // ----- What calls know stays true as the past grows -----

  ghost predicate PastGrows(a: History, b: History) {
    && (forall f :: f in a.origins ==> f in b.origins && b.origins[f] == a.origins[f])
    && (forall h :: h in a.refresh ==> h in b.refresh && b.refresh[h] == a.refresh[h])
    && (forall h :: h in a.access ==> h in b.access && b.access[h] == a.access[h])
    && (forall f :: f in a.consumed ==> f in b.consumed && b.consumed[f] == a.consumed[f])
    && a.presented <= b.presented && a.presentedCodes <= b.presentedCodes
  }

  /** s' knows all that s knew about claimed, returned and presented tokens. */
  ghost predicate Grows(s: State, s': State) {
    && PastGrows(s.past, s'.past)
    && (forall h :: RefreshReturned(s, h) ==> RefreshReturned(s', h))
    && (forall h :: Spent(s, h) ==> Spent(s', h))
    && (forall h :: h in s.past.presented && h in s'.past.refresh ==> h in s.past.refresh)
    && (forall t, c :: c in s.past.presentedCodes && !Usable(s.db.codes, t, c) ==> !Usable(s'.db.codes, t, c))
  }

  lemma GrowKeepsCallOk(s: State, s': State, i: CallId, c: Call)
    requires Grows(s, s') && CallOk(s, i, c)
    requires forall f :: TipIs(s, f, ByCall(i)) ==> TipIs(s', f, ByCall(i))
    ensures CallOk(s', i, c)
  {
  }

  ghost predicate OnlyCallChanged(s: State, s': State, id: CallId) {
    id in s.calls && s'.calls.Keys == s.calls.Keys && forall j :: j in s.calls && j != id ==> s'.calls[j] == s.calls[j]
  }

  ghost predicate OthersKeepTips(s: State, s': State, id: CallId) {
    forall f, i :: i != id && TipIs(s, f, ByCall(i)) ==> TipIs(s', f, ByCall(i))
  }

  lemma OthersKeepCallOk(s: State, s': State, id: CallId)
    requires CallsOk(s) && Grows(s, s') && OnlyCallChanged(s, s', id) && CallOk(s', id, s'.calls[id])
    requires s'.past.tips.Keys == s'.past.origins.Keys && OthersKeepTips(s, s', id)
    ensures CallsOk(s')
  {
    forall i | i in s'.calls && i != id ensures CallOk(s', i, s'.calls[i]) {
      GrowKeepsCallOk(s, s', i, s.calls[i]);
    }
  }

  // ----- Rows disappear -----

  ghost predicate Shrinks(a: Db, b: Db) {
    && (forall h :: h in b.refresh ==> h in a.refresh && b.refresh[h] == a.refresh[h])
    && (forall h :: h in b.access ==> h in a.access && b.access[h] == a.access[h])
    && (forall c :: c in b.codes ==> c in a.codes && b.codes[c] == a.codes[c])
  }

  lemma ShrinkKeepsCalls(s: State, db: Db)
    requires CallsOk(s) && Shrinks(s.db, db)
    ensures CallsOk(s.(db := db))
  {
  }

  lemma ShrinkKeepsSeal(s: State, db: Db, f: Family)
    requires SealHolds(s, f) && Shrinks(s.db, db)
    ensures SealHolds(s.(db := db), f)
  {
  }

  lemma ShrinkKeepsRows(s: State, db: Db)
    requires RowsKnown(s) && TipsOk(s) && Shrinks(s.db, db)
    ensures RowsKnown(s.(db := db)) && TipsOk(s.(db := db))
  {
  }

  lemma ShrinkKeepsChains(s: State, db: Db)
    requires ChainsOk(s) && CondemnedOk(s) && Shrinks(s.db, db)
    ensures ChainsOk(s.(db := db)) && CondemnedOk(s.(db := db))
  {
  }

  lemma ShrinkKeepsInv(s: State, db: Db)
    requires Inv(s) && Shrinks(s.db, db)
    ensures Inv(s.(db := db))
  {
    InvParts(s);
    ShrinkKeepsCalls(s, db);
    ShrinkKeepsRows(s, db);
    ShrinkKeepsChains(s, db);
    assert RefreshProvenance(s.(db := db)) && AccessProvenance(s.(db := db)) && OwnersOk(s.(db := db));
    forall f | f in s.past.marks.sealed ensures SealHolds(s.(db := db), f) {
      ShrinkKeepsSeal(s, db, f);
    }
    PartsInv(s.(db := db));
  }

  // ----- A call moves on without changing a row -----

  ghost function Moved(s: State, id: CallId, pc: Pc): State
    requires id in s.calls
  {
    s.(calls := s.calls[id := s.calls[id].(pc := pc)])
  }

  /** What a call that only moves on must respect. */
  ghost predicate MoveOk(s: State, id: CallId, pc: Pc) {
    && id in s.calls
    && var was := s.calls[id].pc;
    && !was.Done? && !pc.StoreAccess? && !pc.StoreRefresh?
    && CallOk(s, id, Call(s.calls[id].req, pc))
    && (forall h :: h in s.past.refresh && s.past.refresh[h].owner == id ==> HasStoredRefresh(pc, h))
    && (forall h :: h in s.past.access && s.past.access[h].owner == id ==> HasStoredAccess(pc, h))
    && (Doomed(s, id) ==>
          pc == Done(Refused(ServerError)) || pc == DelRefresh(was.g.family) || (pc.ReRead? && pc.g == was.g))
    && MoveRespectsSeals(s, was, pc)
  }

  ghost predicate MoveRespectsSeals(s: State, was: Pc, pc: Pc) {
    && (forall f :: f in s.past.marks.sealed ==> NoClaimLeft(s, pc, f))
    && (pc.Done? && pc.outcome.Granted? && pc.outcome.refresh in s.db.refresh ==>
          s.db.refresh[pc.outcome.refresh].family !in s.past.marks.sealed)
    && (was.DelRefresh? ==> pc == DelAccess(was.family) && RefreshDealtWith(s, was.family))
    && (was.DelAccess? ==> GivesUp(pc) && AccessDealtWith(s, was.family))
  }

  /** The delete of the family's refresh rows took effect, or it erred. */
  ghost predicate RefreshDealtWith(s: State, f: Family) {
    f !in s.past.marks.slipped ==>
      && (f in s.past.marks.condemned ==> f in s.past.marks.sealed)
      && forall h :: h in s.db.refresh ==> s.db.refresh[h].family != f
  }

  ghost predicate AccessDealtWith(s: State, f: Family) {
    f !in s.past.marks.slipped ==> forall h :: h in s.db.access ==> s.db.access[h].family != f
  }

  lemma MoveGrows(s: State, id: CallId, pc: Pc)
    requires id in s.calls && !s.calls[id].pc.Done?
    ensures Grows(s, Moved(s, id, pc))
  {
  }

  lemma MoveKeepsCalls(s: State, id: CallId, pc: Pc)
    requires CallsOk(s) && MoveOk(s, id, pc)
    ensures CallsOk(Moved(s, id, pc))
  {
    var s' := Moved(s, id, pc);
    MoveGrows(s, id, pc);
    forall i | i in s'.calls ensures CallOk(s', i, s'.calls[i]) {
      GrowKeepsCallOk(s, s', i, s'.calls[i]);
    }
  }

  lemma MoveKeepsOwners(s: State, id: CallId, pc: Pc)
    requires OwnersOk(s) && MoveOk(s, id, pc)
    ensures OwnersOk(Moved(s, id, pc))
  {
  }

  lemma MoveKeepsChains(s: State, id: CallId, pc: Pc)
    requires ChainsOk(s) && MoveOk(s, id, pc)
    ensures ChainsOk(Moved(s, id, pc))
  {
  }

  lemma MoveKeepsPending(s: State, id: CallId, pc: Pc, f: Family)
    requires MoveOk(s, id, pc)
    ensures NoExchangePending(s, f) ==> NoExchangePending(Moved(s, id, pc), f)
    ensures Wiping(s, f) && s.calls[id].pc != DelRefresh(f) ==> Wiping(Moved(s, id, pc), f)
    ensures WipingAccess(s, f) && s.calls[id].pc != DelAccess(f) ==> WipingAccess(Moved(s, id, pc), f)
  {
    var s' := Moved(s, id, pc);
    if Wiping(s, f) {
      var j :| j in s.calls && s.calls[j].pc == DelRefresh(f);
      assert j != id ==> j in s'.calls && s'.calls[j].pc == DelRefresh(f);
      assert j == id ==> s'.calls[id].pc == DelAccess(f);
    } else if WipingAccess(s, f) {
      var j :| j in s.calls && s.calls[j].pc == DelAccess(f);
      assert j != id ==> j in s'.calls && s'.calls[j].pc == DelAccess(f);
    }
  }

  lemma MoveKeepsLeftRefresh(s: State, id: CallId, pc: Pc, f: Family, h: Hash)
    requires MoveOk(s, id, pc) && f in s.past.marks.sealed && OwnersOk(s) && CallOk(s, id, s.calls[id])
    requires h in s.db.refresh && h in s.past.refresh && s.db.refresh[h].family == f == s.past.refresh[h].row.family
    requires LeftRefresh(s, f, h)
    ensures LeftRefresh(Moved(s, id, pc), f, h)
  {
    var s' := Moved(s, id, pc);
    var owner := s.past.refresh[h].owner;
    if Wiping(s, f) {
      MoveKeepsPending(s, id, pc, f);
    } else if owner == id {
      assert pc == DelRefresh(f) ==> id in s'.calls && s'.calls[id].pc == DelRefresh(f);
    }
  }

  lemma MoveKeepsLeftAccess(s: State, id: CallId, pc: Pc, f: Family, h: Hash)
    requires MoveOk(s, id, pc) && f in s.past.marks.sealed && OwnersOk(s) && CallOk(s, id, s.calls[id])
    requires h in s.db.access && h in s.past.access && s.db.access[h].family == f == s.past.access[h].row.family
    requires LeftAccess(s, f, h)
    ensures LeftAccess(Moved(s, id, pc), f, h)
  {
    var s' := Moved(s, id, pc);
    var owner := s.past.access[h].owner;
    if WipingAccess(s, f) {
      MoveKeepsPending(s, id, pc, f);
    } else if owner == id {
      assert pc == DelRefresh(f) ==> id in s'.calls && s'.calls[id].pc == DelRefresh(f);
    }
  }

  lemma MoveKeepsNoClaim(s: State, id: CallId, pc: Pc, f: Family)
    requires MoveOk(s, id, pc) && f in s.past.marks.sealed && SealHolds(s, f)
    ensures forall i :: i in Moved(s, id, pc).calls ==>
      NoClaimLeft(Moved(s, id, pc), Moved(s, id, pc).calls[i].pc, f)
  {
    var s' := Moved(s, id, pc);
    forall i | i in s'.calls ensures NoClaimLeft(s', s'.calls[i].pc, f) {
      assert i != id ==> NoClaimLeft(s, s.calls[i].pc, f);
    }
  }

  lemma MoveKeepsSeal(s: State, id: CallId, pc: Pc, f: Family)
    requires MoveOk(s, id, pc) && f in s.past.marks.sealed && SealHolds(s, f)
    requires RowsKnown(s) && OwnersOk(s) && CallOk(s, id, s.calls[id])
    ensures SealHolds(Moved(s, id, pc), f)
  {
    var s' := Moved(s, id, pc);
    MoveKeepsPending(s, id, pc, f);
    MoveKeepsNoClaim(s, id, pc, f);
    forall h | h in s.db.refresh && s.db.refresh[h].family == f ensures LeftRefresh(s', f, h) {
      MoveKeepsLeftRefresh(s, id, pc, f, h);
    }
    forall h | h in s.db.access && s.db.access[h].family == f ensures LeftAccess(s', f, h) {
      MoveKeepsLeftAccess(s, id, pc, f, h);
    }
  }

  lemma MoveKeepsInv(s: State, id: CallId, pc: Pc)
    requires Inv(s) && MoveOk(s, id, pc)
    ensures Inv(Moved(s, id, pc))
  {
    InvParts(s);
    var s' := Moved(s, id, pc);
    MoveKeepsCalls(s, id, pc);
    MoveKeepsOwners(s, id, pc);
    MoveKeepsChains(s, id, pc);
    forall f | f in s.past.marks.sealed ensures SealHolds(s', f) {
      MoveKeepsSeal(s, id, pc, f);
    }
    forall f | f in s.past.marks.condemned ensures CondemnedFamilyOk(s', f) {
      MoveKeepsPending(s, id, pc, f);
    }
    assert RowsKnown(s') && RefreshProvenance(s') && AccessProvenance(s') && TipsOk(s');
    PartsInv(Moved(s, id, pc));
  }

  // ----- A call claims or stores: what revoked families keep -----

  /** s' differs from s in call id, which deletes no family, and in rows and records that were added. */
  ghost predicate Extends(s: State, s': State, id: CallId) {
    && id in s.calls && !s.calls[id].pc.DelRefresh? && !s.calls[id].pc.DelAccess? && !s.calls[id].pc.Done?
    && s'.calls.Keys == s.calls.Keys
    && (forall j :: j in s.calls && j != id ==> s'.calls[j] == s.calls[j])
    && (forall h :: h in s.past.refresh ==> h in s'.past.refresh && s'.past.refresh[h] == s.past.refresh[h])
    && (forall h :: h in s.past.access ==> h in s'.past.access && s'.past.access[h] == s.past.access[h])
    && (forall h :: h in s'.db.refresh && h !in s.db.refresh ==> h !in s.past.refresh)
    && s.past.consumed.Keys <= s'.past.consumed.Keys && s'.past.marks == s.past.marks
    && (Doomed(s, id) ==> Doomed(s', id))
  }

  lemma ExtendKeepsWiping(s: State, s': State, id: CallId, f: Family)
    requires Extends(s, s', id)
    ensures Wiping(s, f) ==> Wiping(s', f)
    ensures WipingAccess(s, f) ==> WipingAccess(s', f)
  {
  }

  lemma ExtendKeepsDoomed(s: State, s': State, id: CallId, i: CallId)
    requires Extends(s, s', id) && CallsOk(s) && Doomed(s, i)
    ensures Doomed(s', i)
  {
  }

  lemma ExtendKeepsLeft(s: State, s': State, id: CallId, f: Family, h: Hash)
    requires Extends(s, s', id) && CallsOk(s) && !WasGranted(s', id)
    ensures LeftRefresh(s, f, h) ==> LeftRefresh(s', f, h)
    ensures LeftAccess(s, f, h) ==> LeftAccess(s', f, h)
  {
    ExtendKeepsWiping(s, s', id, f);
    if h in s.past.refresh && Doomed(s, s.past.refresh[h].owner) {
      ExtendKeepsDoomed(s, s', id, s.past.refresh[h].owner);
    }
    if h in s.past.access && Doomed(s, s.past.access[h].owner) {
      ExtendKeepsDoomed(s, s', id, s.past.access[h].owner);
    }
  }

  lemma ExtendKeepsNoClaim(s: State, s': State, id: CallId, f: Family, i: CallId)
    requires Extends(s, s', id) && CallsOk(s) && i in s.calls && i != id
    requires NoClaimLeft(s, s.calls[i].pc, f)
    ensures NoClaimLeft(s', s'.calls[i].pc, f)
  {
  }

  /** A revoked family stays revoked when the rows added to it are themselves on their way out. */
  lemma ExtendKeepsSeal(s: State, s': State, id: CallId, f: Family)
    requires Extends(s, s', id) && CallsOk(s) && SealHolds(s, f) && !WasGranted(s', id)
    requires !Exchanging(s'.calls[id].pc, f) && NoClaimLeft(s', s'.calls[id].pc, f)
    requires forall h :: h in s'.db.refresh && s'.db.refresh[h].family == f ==>
      (h in s.db.refresh && s.db.refresh[h].family == f) || LeftRefresh(s', f, h)
    requires forall h :: h in s'.db.access && s'.db.access[h].family == f ==>
      (h in s.db.access && s.db.access[h].family == f) || LeftAccess(s', f, h)
    ensures SealHolds(s', f)
  {
    forall i | i in s'.calls ensures NoClaimLeft(s', s'.calls[i].pc, f) && !Exchanging(s'.calls[i].pc, f) {
      if i != id {
        ExtendKeepsNoClaim(s, s', id, f, i);
      }
    }
    forall h | h in s'.db.refresh && s'.db.refresh[h].family == f ensures LeftRefresh(s', f, h) {
      ExtendKeepsLeft(s, s', id, f, h);
    }
    forall h | h in s'.db.access && s'.db.access[h].family == f ensures LeftAccess(s', f, h) {
      ExtendKeepsLeft(s, s', id, f, h);
    }
  }

  lemma ExtendKeepsCondemned(s: State, s': State, id: CallId)
    requires Extends(s, s', id) && CondemnedOk(s)
    requires forall f :: f in s.past.marks.condemned ==> !Exchanging(s'.calls[id].pc, f)
    ensures CondemnedOk(s')
  {
  }
}
