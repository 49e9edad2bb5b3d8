/** Every event of TokenMachine keeps its invariant. */
module TokenProofsSteps {
  import opened Common
  import opened Scopes
  import opened TokenTables
  import opened TokenCalls
  import opened TokenMachine
  import opened TokenProofs
  import opened TokenProofsIssue

  // ----- Marking families -----

  /** s with other marks: nothing in the invariant but SealsOk and CondemnedOk reads them. */
  ghost function Marked(s: State, m: Marks): State {
    s.(past := s.past.(marks := m))
  }

  lemma MarkKeepsRest(s: State, m: Marks)
    requires RowsKnown(s) && RefreshProvenance(s) && AccessProvenance(s) && OwnersOk(s) && TipsOk(s) && ChainsOk(s)
    ensures var s' := Marked(s, m);
      RowsKnown(s') && RefreshProvenance(s') && AccessProvenance(s') && OwnersOk(s') && TipsOk(s') && ChainsOk(s')
  {
    var s' := Marked(s, m);
    assert forall f, t :: TipIs(s, f, t) ==> TipIs(s', f, t);
    assert forall h :: Spent(s, h) ==> Spent(s', h);
    assert forall h, k :: h in s.past.refresh && k in s.past.refresh && Siblings(s', h, k) ==> Siblings(s, h, k);
  }

  lemma MarkKeepsCalls(s: State, m: Marks)
    requires CallsOk(s)
    ensures CallsOk(Marked(s, m))
  {
  }

  lemma MarkKeepsInv(s: State, m: Marks)
    requires Inv(s) && SealsOk(Marked(s, m)) && CondemnedOk(Marked(s, m))
    ensures Inv(Marked(s, m))
  {
    InvParts(s);
    MarkKeepsRest(s, m);
    MarkKeepsCalls(s, m);
    PartsInv(Marked(s, m));
  }

  /** A family whose exchange is over is condemned while a call is about to delete it. */
  ghost function Condemned(s: State, f: Family): State {
    Marked(s, s.past.marks.(condemned := s.past.marks.condemned + {f}))
  }

  lemma CondemnKeepsInv(s: State, f: Family)
    requires Inv(s) && f in s.past.consumed && NoExchangePending(s, f) && Wiping(s, f)
    ensures Inv(Condemned(s, f))
  {
    assert Holds(s, Seals) && Holds(s, Condemnations);
    CondemnKeepsMarks(s, f);
    MarkKeepsInv(s, s.past.marks.(condemned := s.past.marks.condemned + {f}));
  }

  lemma SameSeal(s: State, m: Marks, f: Family)
    requires SealHolds(s, f) && s.past.marks.slipped <= m.slipped
    requires f in m.wiped ==>
      f in s.past.marks.wiped || forall h :: h in s.db.access ==> s.db.access[h].family != f
    ensures SealHolds(Marked(s, m), f)
  {
    var s' := Marked(s, m);
    forall i | i in s.calls ensures NoClaimLeft(s', s.calls[i].pc, f) {
      assert NoClaimLeft(s, s.calls[i].pc, f);
    }
    assert Wiping(s, f) ==> Wiping(s', f);
    assert WipingAccess(s, f) ==> WipingAccess(s', f);
    assert forall i :: Doomed(s, i) ==> Doomed(s', i);
    assert forall i :: WasFailed(s, i) ==> WasFailed(s', i);
    forall h | h in s.db.refresh && s.db.refresh[h].family == f ensures LeftRefresh(s', f, h) {
      assert LeftRefresh(s, f, h);
    }
    forall h | h in s.db.access && s.db.access[h].family == f ensures LeftAccess(s', f, h) {
      assert LeftAccess(s, f, h);
    }
  }

  lemma CondemnKeepsMarks(s: State, f: Family)
    requires SealsOk(s) && CondemnedOk(s) && f in s.past.consumed && NoExchangePending(s, f) && Wiping(s, f)
    ensures SealsOk(Condemned(s, f)) && CondemnedOk(Condemned(s, f))
  {
    var m := s.past.marks.(condemned := s.past.marks.condemned + {f});
    forall g | g in m.sealed ensures SealHolds(Marked(s, m), g) {
      SameSeal(s, m, g);
    }
    forall g | g in m.condemned ensures CondemnedFamilyOk(Marked(s, m), g) {
      assert g != f ==> CondemnedFamilyOk(s, g);
    }
  }

  // ----- A delete erred -----

  ghost function Slipped(s: State, f: Family): State {
    Marked(s, s.past.marks.(slipped := s.past.marks.slipped + {f}))
  }

  lemma SlipKeepsInv(s: State, f: Family)
    requires Inv(s)
    ensures Inv(Slipped(s, f))
  {
    assert Holds(s, Seals) && Holds(s, Condemnations);
    SlipKeepsMarks(s, f);
    MarkKeepsInv(s, s.past.marks.(slipped := s.past.marks.slipped + {f}));
  }

  lemma SlipKeepsMarks(s: State, f: Family)
    requires SealsOk(s) && CondemnedOk(s)
    ensures SealsOk(Slipped(s, f)) && CondemnedOk(Slipped(s, f))
  {
    var m := s.past.marks.(slipped := s.past.marks.slipped + {f});
    forall g | g in m.sealed ensures SealHolds(Marked(s, m), g) {
      SameSeal(s, m, g);
    }
    forall g | g in m.condemned ensures CondemnedFamilyOk(Marked(s, m), g) {
      assert CondemnedFamilyOk(s, g);
    }
  }

  // ----- A delete of refresh rows took effect -----

  ghost function Sealed(s: State, f: Family): State {
    Marked(s, s.past.marks.(sealed := s.past.marks.sealed + {f}))
  }

  lemma WipedFamilyHoldsSeal(s: State, f: Family)
    requires CallsOk(s) && f in s.past.consumed && NoExchangePending(s, f) && Wiping(s, f)
    requires AllAccessKnown(s) && AllRefreshKnown(s)
    requires f in s.past.marks.wiped ==> SealHolds(s, f)
    requires forall h :: h in s.db.refresh ==> s.db.refresh[h].family != f
    ensures SealHolds(s, f)
  {
    forall i | i in s.calls ensures NoClaimLeft(s, s.calls[i].pc, f) {
      WipedFamilyLeavesNoClaim(s, f, i, s.calls[i]);
    }
  }

  lemma WipedFamilyLeavesNoClaim(s: State, f: Family, i: CallId, c: Call)
    requires CallOk(s, i, c) && AllRefreshKnown(s)
    requires forall h :: h in s.db.refresh ==> s.db.refresh[h].family != f
    ensures NoClaimLeft(s, c.pc, f)
  {
  }

  ghost predicate AllRefreshKnown(s: State) {
    forall h :: h in s.db.refresh ==> h in s.past.refresh && s.db.refresh[h].family == s.past.refresh[h].row.family
  }

  ghost predicate AllAccessKnown(s: State) {
    forall h :: h in s.db.access ==> h in s.past.access
  }

  lemma SealKeepsMarks(s: State, f: Family)
    requires SealsOk(s) && CondemnedOk(s) && SealHolds(s, f)
    ensures SealsOk(Sealed(s, f)) && CondemnedOk(Sealed(s, f))
  {
    var m := s.past.marks.(sealed := s.past.marks.sealed + {f});
    forall g | g in m.sealed ensures SealHolds(Marked(s, m), g) {
      SameSeal(s, m, g);
    }
    forall g | g in m.condemned ensures CondemnedFamilyOk(Marked(s, m), g) {
      assert CondemnedFamilyOk(s, g);
    }
  }

  /** A family whose refresh rows were just deleted, with its exchange over, is sealed. */
  lemma SealKeepsInv(s: State, f: Family)
    requires Inv(s) && f in s.past.consumed && NoExchangePending(s, f) && Wiping(s, f)
    requires forall h :: h in s.db.refresh ==> s.db.refresh[h].family != f
    ensures Inv(Sealed(s, f))
  {
    assert Holds(s, Calls) && Holds(s, Rows) && Holds(s, Seals) && Holds(s, Condemnations);
    WipedFamilyHoldsSeal(s, f);
    SealKeepsMarks(s, f);
    MarkKeepsInv(s, s.past.marks.(sealed := s.past.marks.sealed + {f}));
  }

  // ----- A delete of access rows took effect -----

  ghost function Wiped(s: State, f: Family): State {
    Marked(s, s.past.marks.(wiped := s.past.marks.wiped + {f}))
  }

  lemma WipeKeepsMarks(s: State, f: Family)
    requires SealsOk(s) && CondemnedOk(s) && f in s.past.marks.sealed
    requires forall h :: h in s.db.access ==> s.db.access[h].family != f
    ensures SealsOk(Wiped(s, f)) && CondemnedOk(Wiped(s, f))
  {
    var m := s.past.marks.(wiped := s.past.marks.wiped + {f});
    forall g | g in m.sealed ensures SealHolds(Marked(s, m), g) {
      SameSeal(s, m, g);
    }
    forall g | g in m.condemned ensures CondemnedFamilyOk(Marked(s, m), g) {
      assert CondemnedFamilyOk(s, g);
    }
  }

  /** A sealed family whose access rows were just deleted is wiped. */
  lemma WipeKeepsInv(s: State, f: Family)
    requires Inv(s) && f in s.past.marks.sealed
    requires forall h :: h in s.db.access ==> s.db.access[h].family != f
    ensures Inv(Wiped(s, f))
  {
    assert Holds(s, Seals) && Holds(s, Condemnations);
    WipeKeepsMarks(s, f);
    MarkKeepsInv(s, s.past.marks.(wiped := s.past.marks.wiped + {f}));
  }

  // ----- New calls, new codes, time -----

  /** s' has one more call, or one more code, or a later clock. */
  ghost predicate Opens(s: State, s': State) {
    && s'.db.refresh == s.db.refresh && s'.db.access == s.db.access
    && s'.past.refresh == s.past.refresh && s'.past.access == s.past.access
    && s'.past.consumed == s.past.consumed && s'.past.marks == s.past.marks
    && (forall i :: i in s.calls ==> i in s'.calls && s'.calls[i] == s.calls[i])
    && (forall i :: i in s'.calls && i !in s.calls ==> s'.calls[i].pc == Start(s'.calls[i].req))
  }

  lemma OpenKeepsSeal(s: State, s': State, f: Family)
    requires Opens(s, s') && SealHolds(s, f)
    ensures SealHolds(s', f)
  {
    forall i | i in s'.calls ensures NoClaimLeft(s', s'.calls[i].pc, f) && !Exchanging(s'.calls[i].pc, f) {
      assert i in s.calls ==> NoClaimLeft(s, s.calls[i].pc, f);
    }
    assert Wiping(s, f) ==> Wiping(s', f);
    assert WipingAccess(s, f) ==> WipingAccess(s', f);
    assert forall i :: Doomed(s, i) ==> Doomed(s', i);
    assert forall i :: WasFailed(s, i) ==> WasFailed(s', i);
    forall h | h in s'.db.refresh && s'.db.refresh[h].family == f ensures LeftRefresh(s', f, h) {
      assert LeftRefresh(s, f, h);
    }
    forall h | h in s'.db.access && s'.db.access[h].family == f ensures LeftAccess(s', f, h) {
      assert LeftAccess(s, f, h);
    }
  }

  lemma OpenKeepsSeals(s: State, s': State)
    requires Opens(s, s') && SealsOk(s) && CondemnedOk(s)
    ensures SealsOk(s') && CondemnedOk(s')
  {
    forall f | f in s'.past.marks.sealed ensures SealHolds(s', f) {
      OpenKeepsSeal(s, s', f);
    }
    forall f | f in s'.past.marks.condemned ensures CondemnedFamilyOk(s', f) {
      assert NoExchangePending(s, f);
      assert Wiping(s, f) ==> Wiping(s', f);
    }
  }

  lemma OpenKeepsChains(s: State, s': State)
    requires Opens(s, s') && ChainsOk(s)
    ensures ChainsOk(s')
  {
    assert forall h :: Spent(s, h) ==> Spent(s', h);
    assert forall h, k :: h in s.past.refresh && k in s.past.refresh && Siblings(s', h, k) ==> Siblings(s, h, k);
  }

  lemma OpenKeepsRest(s: State, s': State)
    requires Opens(s, s') && RefreshProvenance(s) && AccessProvenance(s) && OwnersOk(s)
    requires forall f :: f in s.past.origins ==> f in s'.past.origins && s'.past.origins[f] == s.past.origins[f]
    requires s.past.consumed.Keys <= s.past.origins.Keys
    ensures RefreshProvenance(s') && AccessProvenance(s') && OwnersOk(s')
  {
  }

  lemma BeginKeepsInv(s: State, id: CallId, req: Request)
    requires Inv(s) && Enabled(s, Begin(id, req))
    ensures Inv(Apply(s, Begin(id, req)))
  {
    InvParts(s);
    var s' := Apply(s, Begin(id, req));
    assert Opens(s, s');
    OpenKeepsSeals(s, s');
    OpenKeepsChains(s, s');
    BeginKeepsCalls(s, id, req);
    assert forall f, t :: TipIs(s, f, t) ==> TipIs(s', f, t);
    OpenKeepsRest(s, s');
    assert RowsKnown(s') && TipsOk(s');
    PartsInv(Apply(s, Begin(id, req)));
  }

  lemma BeginKeepsCalls(s: State, id: CallId, req: Request)
    requires CallsOk(s) && Enabled(s, Begin(id, req))
    ensures CallsOk(Apply(s, Begin(id, req)))
  {
    var s' := Apply(s, Begin(id, req));
    BeginGrows(s, id, req);
    forall i | i in s'.calls ensures CallOk(s', i, s'.calls[i]) {
      if i != id {
        GrowKeepsCallOk(s, s', i, s.calls[i]);
      }
    }
  }

  lemma BeginGrows(s: State, id: CallId, req: Request)
    requires Enabled(s, Begin(id, req))
    ensures Grows(s, Apply(s, Begin(id, req)))
  {
  }

  lemma IssueCodeKeepsInv(s: State, row: CodeRow)
    requires Inv(s) && Enabled(s, IssueCode(row))
    ensures Inv(Apply(s, IssueCode(row)))
  {
    InvParts(s);
    var s' := Apply(s, IssueCode(row));
    IssueCodeOpens(s, row);
    OpenKeepsSeals(s, s');
    OpenKeepsChains(s, s');
    IssueCodeKeepsCalls(s, row);
    IssueCodeKeepsRows(s, row);
    IssueCodeKeepsTips(s, row);
    OpenKeepsRest(s, s');
    PartsInv(Apply(s, IssueCode(row)));
  }

  lemma IssueCodeOpens(s: State, row: CodeRow)
    requires Enabled(s, IssueCode(row))
    ensures Opens(s, Apply(s, IssueCode(row)))
  {
  }

  lemma IssueCodeGrows(s: State, row: CodeRow)
    requires Enabled(s, IssueCode(row))
    ensures Grows(s, Apply(s, IssueCode(row)))
  {
  }

  lemma IssueCodeKeepsCalls(s: State, row: CodeRow)
    requires CallsOk(s) && Enabled(s, IssueCode(row))
    ensures CallsOk(Apply(s, IssueCode(row)))
  {
    var s' := Apply(s, IssueCode(row));
    assert forall f, t :: TipIs(s, f, t) ==> TipIs(s', f, t);
    IssueCodeGrows(s, row);
    forall i | i in s'.calls ensures CallOk(s', i, s'.calls[i]) {
      GrowKeepsCallOk(s, s', i, s.calls[i]);
    }
  }

  lemma IssueCodeKeepsRows(s: State, row: CodeRow)
    requires RowsKnown(s) && Enabled(s, IssueCode(row))
    ensures RowsKnown(Apply(s, IssueCode(row)))
  {
  }

  lemma IssueCodeKeepsTips(s: State, row: CodeRow)
    requires TipsOk(s) && s.past.tips.Keys == s.past.origins.Keys && Enabled(s, IssueCode(row))
    ensures TipsOk(Apply(s, IssueCode(row)))
  {
  }

  lemma TickKeepsCalls(s: State, to: Time)
    requires CallsOk(s)
    ensures CallsOk(s.(now := to))
  {
  }

  lemma TickKeepsInv(s: State, to: Time)
    requires Inv(s) && s.now <= to
    ensures Inv(s.(now := to))
  {
    InvParts(s);
    var s' := s.(now := to);
    assert Opens(s, s');
    OpenKeepsSeals(s, s');
    OpenKeepsChains(s, s');
    OpenKeepsRest(s, s');
    TickKeepsCalls(s, to);
    assert forall f, t :: TipIs(s, f, t) ==> TipIs(s', f, t);
    assert RowsKnown(s') && TipsOk(s');
    PartsInv(s.(now := to));
  }

  lemma InitInv(now: Time)
    ensures Inv(Init(now))
  {
  }
}
