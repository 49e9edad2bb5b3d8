/** The invariant of TokenMachine holds in every state of every run. */
module TokenProofsRuns {
  import opened Common
  import opened Scopes
  import opened TokenTables
  import opened TokenCalls
  import opened TokenMachine
  import opened TokenProofs
  import opened TokenProofsIssue
  import opened TokenProofsSteps

  // ----- Moves of calls that hold no token -----

  predicate HoldsToken(pc: Pc) {
    pc.StoreRefresh? || pc.SignId? || pc.ReRead? || pc.DelRefresh? || pc.DelAccess? || pc.Done?
  }

  lemma EmptyHandedMoveOk(s: State, id: CallId, pc: Pc)
    requires id in s.calls && !HoldsToken(s.calls[id].pc) && OwnersOk(s)
    requires CallOk(s, id, Call(s.calls[id].req, pc))
    requires !pc.StoreAccess? && !pc.StoreRefresh? && !pc.SignId? && !pc.ReRead?
    requires pc.Done? ==> !pc.outcome.Granted?
    ensures MoveOk(s, id, pc)
  {
  }

  // ----- Moves of calls that hold tokens -----

  lemma FailedMoveOk(s: State, id: CallId)
    requires id in s.calls && (s.calls[id].pc.StoreRefresh? || s.calls[id].pc.SignId? || s.calls[id].pc.ReRead?)
    requires OwnersOk(s) && CallOk(s, id, s.calls[id])
    ensures MoveOk(s, id, Done(Refused(ServerError)))
  {
  }

  lemma SignedMoveOk(s: State, id: CallId)
    requires id in s.calls && s.calls[id].pc.SignId? && s.calls[id].pc.g.claim.Some?
    requires OwnersOk(s) && CallOk(s, id, s.calls[id])
    requires forall f :: f in s.past.marks.sealed ==> NoClaimLeft(s, s.calls[id].pc, f)
    ensures MoveOk(s, id, ReRead(s.calls[id].pc.g, s.calls[id].pc.access, s.calls[id].pc.refresh))
  {
  }

  lemma GrantedMoveOk(s: State, id: CallId)
    requires id in s.calls && (s.calls[id].pc.SignId? || s.calls[id].pc.ReRead?)
    requires OwnersOk(s) && CallOk(s, id, s.calls[id]) && AllRefreshKnown(s)
    requires forall f :: f in s.past.marks.sealed ==> NoClaimLeft(s, s.calls[id].pc, f)
    requires if s.calls[id].pc.ReRead? then s.calls[id].pc.g.claim.value in s.db.refresh
             else s.calls[id].pc.g.claim.None?
    ensures var pc := s.calls[id].pc; MoveOk(s, id, Done(Granted(pc.access, pc.refresh, pc.g.scope)))
  {
    var pc := s.calls[id].pc;
    var c' := Call(s.calls[id].req, Done(Granted(pc.access, pc.refresh, pc.g.scope)));
    assert c'.req.Exchange? ==> GrantedFor(s, pc.g.family, c'.req, pc.refresh);
    assert CallOk(s, id, c');
    assert NoClaimLeft(s, pc, pc.g.family) || pc.g.family !in s.past.marks.sealed;
  }

  lemma LostMoveOk(s: State, id: CallId)
    requires id in s.calls && s.calls[id].pc.ReRead?
    requires OwnersOk(s) && CallOk(s, id, s.calls[id])
    ensures MoveOk(s, id, DelRefresh(s.calls[id].pc.g.family))
  {
  }

  lemma WipedMoveOk(s: State, id: CallId, f: Family)
    requires id in s.calls && s.calls[id].pc == DelRefresh(f)
    requires OwnersOk(s) && CallOk(s, id, s.calls[id]) && AllRefreshKnown(s)
    requires RefreshDealtWith(s, f)
    ensures MoveOk(s, id, DelAccess(f))
  {
  }

  lemma FinishedMoveOk(s: State, id: CallId, f: Family)
    requires id in s.calls && s.calls[id].pc == DelAccess(f)
    requires OwnersOk(s) && CallOk(s, id, s.calls[id]) && AccessDealtWith(s, f)
    ensures MoveOk(s, id, Done(Revoked(s.calls[id].req)))
  {
  }

  // ----- Each statement -----

  lemma CallHolds(s: State, id: CallId)
    requires Inv(s) && id in s.calls
    ensures CallOk(s, id, s.calls[id]) && OwnersOk(s)
  {
    assert Holds(s, Calls) && Holds(s, Owners);
  }

  ghost function Decision(s: State, id: CallId, e: Env): (Effect, Pc)
    requires Enabled(s, Step(id, e))
  {
    Decide(s.db, s.calls[id], e)
  }

  /** A step without effect that does not start to delete a family only moves its call. */
  lemma StepMoves(s: State, id: CallId, e: Env)
    requires Enabled(s, Step(id, e))
    requires Decision(s, id, e).0 == Nothing && !Decision(s, id, e).1.DelRefresh?
    requires !s.calls[id].pc.DelRefresh? && !s.calls[id].pc.DelAccess?
    ensures Apply(s, Step(id, e)) == Moved(s, id, Decision(s, id, e).1)
  {
  }

  /** A step that starts to delete a family moves its call and, if the exchange is over, condemns the family. */
  lemma StepCondemns(s: State, id: CallId, e: Env, f: Family)
    requires Enabled(s, Step(id, e)) && Decision(s, id, e) == (Nothing, DelRefresh(f))
    ensures Apply(s, Step(id, e)) ==
      if NoExchangePending(s, f) then Condemned(Moved(s, id, DelRefresh(f)), f)
      else Moved(s, id, DelRefresh(f))
  {
  }

  lemma StartDeletingKeepsInv(s: State, id: CallId, e: Env, f: Family)
    requires Inv(s) && Enabled(s, Step(id, e)) && Decision(s, id, e) == (Nothing, DelRefresh(f))
    requires MoveOk(s, id, DelRefresh(f))
    ensures Inv(Apply(s, Step(id, e)))
  {
    assert CallOk(s, id, Call(s.calls[id].req, DelRefresh(f)));
    StepCondemns(s, id, e, f);
    MoveKeepsInv(s, id, DelRefresh(f));
    if NoExchangePending(s, f) {
      var s' := Moved(s, id, DelRefresh(f));
      MoveKeepsPending(s, id, DelRefresh(f), f);
      assert id in s'.calls && s'.calls[id].pc == DelRefresh(f);
      CondemnKeepsInv(s', f);
    }
  }

  predicate OnlyReads(pc: Pc) {
    !pc.StoreAccess? && !pc.StoreRefresh? && !pc.SignId? && !pc.ReRead? && (pc.Done? ==> !pc.outcome.Granted?)
  }

  /** A read that finds what to do next without touching a row. */
  lemma ReadKeepsInv(s: State, id: CallId, e: Env, pc: Pc)
    requires Inv(s) && Enabled(s, Step(id, e)) && !HoldsToken(s.calls[id].pc)
    requires Decision(s, id, e) == (Nothing, pc) && OnlyReads(pc) && CallOk(s, id, Call(s.calls[id].req, pc))
    ensures Inv(Apply(s, Step(id, e)))
  {
    assert Holds(s, Owners);
    EmptyHandedMoveOk(s, id, pc);
    if pc.DelRefresh? {
      StartDeletingKeepsInv(s, id, e, pc.family);
    } else {
      StepMoves(s, id, e);
      MoveKeepsInv(s, id, pc);
    }
  }

  lemma RefreshReadKeepsInv(s: State, id: CallId, e: Env)
    requires Inv(s) && Enabled(s, Step(id, e)) && s.calls[id].pc.RefreshRead?
    ensures Inv(Apply(s, Step(id, e)))
  {
    CallHolds(s, id);
    var c := s.calls[id];
    var row := FindRefresh(s.db.refresh, c.req.tenant, Sha256(c.req.token));
    if e.fails || row.None? {
      ReadKeepsInv(s, id, e, Done(Refused(InvalidGrant)));
    } else {
      AfterRefreshReadKeepsInv(s, id, e, row.value);
    }
  }

  lemma AfterRefreshReadKeepsInv(s: State, id: CallId, e: Env, row: RefreshRow)
    requires Inv(s) && Enabled(s, Step(id, e)) && s.calls[id].pc.RefreshRead? && CallOk(s, id, s.calls[id])
    requires FindRefresh(s.db.refresh, s.calls[id].req.tenant, Sha256(s.calls[id].req.token)) == Some(row)
    requires Decision(s, id, e) == (Nothing, AfterRefreshRead(row, s.calls[id].req, e))
    ensures Inv(Apply(s, Step(id, e)))
  {
    assert Holds(s, Rows) && Holds(s, Refreshes);
    AfterRefreshReadIsOk(s, id, e, row);
    ReadKeepsInv(s, id, e, AfterRefreshRead(row, s.calls[id].req, e));
  }

  lemma AfterRefreshReadIsOk(s: State, id: CallId, e: Env, row: RefreshRow)
    requires id in s.calls && s.calls[id].pc.RefreshRead? && CallOk(s, id, s.calls[id])
    requires var h := Sha256(s.calls[id].req.token);
      h in s.past.refresh && row.(revoked := false) == s.past.refresh[h].row && row.family in s.past.consumed
    requires row.family.tenant == s.calls[id].req.tenant
    ensures var pc := AfterRefreshRead(row, s.calls[id].req, e);
      CallOk(s, id, Call(s.calls[id].req, pc))
      && OnlyReads(pc)
  {
  }

  lemma RefreshClaimKeepsInv(s: State, id: CallId, e: Env)
    requires Inv(s) && Enabled(s, Step(id, e)) && s.calls[id].pc.RefreshClaim?
    ensures Inv(Apply(s, Step(id, e)))
  {
    var (effect, pc) := Decision(s, id, e);
    assert Holds(s, Refreshes);
    CallHolds(s, id);
    if effect == Nothing {
      ReadKeepsInv(s, id, e, pc);
    } else {
      StepClaims(s, id, e);
      ClaimKeepsInv(s, id);
    }
  }

  lemma StepClaims(s: State, id: CallId, e: Env)
    requires Enabled(s, Step(id, e)) && s.calls[id].pc.RefreshClaim? && Decision(s, id, e).0 != Nothing
    ensures CanClaim(s, id) && Apply(s, Step(id, e)) == AfterClaim(s, id)
  {
  }

  lemma ConsumeStepKeepsInv(s: State, id: CallId, e: Env)
    requires Inv(s) && Enabled(s, Step(id, e)) && s.calls[id].pc.CodeConsume?
    ensures Inv(Apply(s, Step(id, e)))
  {
    var (effect, pc) := Decision(s, id, e);
    CallHolds(s, id);
    if effect == Nothing {
      EmptyHandedMoveOk(s, id, pc);
      StepMoves(s, id, e);
      MoveKeepsInv(s, id, pc);
    } else {
      StepConsumes(s, id, e);
      ConsumeKeepsInv(s, id, e);
    }
  }

  lemma StepConsumes(s: State, id: CallId, e: Env)
    requires Enabled(s, Step(id, e)) && s.calls[id].pc.CodeConsume? && Decision(s, id, e).0 != Nothing
    ensures CanConsume(s, id, e) && Apply(s, Step(id, e)) == AfterUse(s, id, e)
  {
  }

  lemma CodeReadKeepsInv(s: State, id: CallId, e: Env)
    requires Inv(s) && Enabled(s, Step(id, e)) && s.calls[id].pc.CodeRead?
    ensures Inv(Apply(s, Step(id, e)))
  {
    var pc := Decision(s, id, e).1;
    CallHolds(s, id);
    assert Holds(s, Rows);
    ReadKeepsInv(s, id, e, pc);
  }

  lemma RevokeReadKeepsInv(s: State, id: CallId, e: Env)
    requires Inv(s) && Enabled(s, Step(id, e)) && (s.calls[id].pc.RevokeRead? || s.calls[id].pc.RevokeReadAccess?)
    ensures Inv(Apply(s, Step(id, e)))
  {
    assert Holds(s, Rows) && Holds(s, Refreshes) && Holds(s, Calls);
    var pc := Decision(s, id, e).1;
    RevokeReadIsOk(s, id, s.calls[id], e, pc);
    ReadKeepsInv(s, id, e, pc);
  }

  lemma RevokeReadIsOk(s: State, id: CallId, c: Call, e: Env, pc: Pc)
    requires id in s.calls && c == s.calls[id] && (c.pc.RevokeRead? || c.pc.RevokeReadAccess?) && WellFormed(c)
    requires pc == Decide(s.db, c, e).1 && RowsKnown(s) && RefreshProvenance(s) && CallsOk(s)
    ensures CallOk(s, id, Call(c.req, pc)) && OnlyReads(pc)
  {
  }

  lemma DropStepKeepsInv(s: State, id: CallId, e: Env)
    requires Inv(s) && Enabled(s, Step(id, e))
    requires s.calls[id].pc.RefreshDropExpired? || s.calls[id].pc.CodeDropExpired? || s.calls[id].pc.RevokeDropAccess?
    ensures Inv(Apply(s, Step(id, e)))
  {
    var (effect, pc) := Decision(s, id, e);
    var s1 := s.(db := Perform(s.db, effect));
    StepDrops(s, id, e);
    ShrinkKeepsInv(s, s1.db);
    CallHolds(s1, id);
    EmptyHandedMoveOk(s1, id, pc);
    MoveKeepsInv(s1, id, pc);
  }

  lemma StepDrops(s: State, id: CallId, e: Env)
    requires Enabled(s, Step(id, e))
    requires s.calls[id].pc.RefreshDropExpired? || s.calls[id].pc.CodeDropExpired? || s.calls[id].pc.RevokeDropAccess?
    ensures var (effect, pc) := Decision(s, id, e);
      Shrinks(s.db, Perform(s.db, effect)) && Apply(s, Step(id, e)) == Moved(s.(db := Perform(s.db, effect)), id, pc)
      && pc.Done? && !pc.outcome.Granted?
  {
  }

  lemma StoreAccessStepKeepsInv(s: State, id: CallId, e: Env)
    requires Inv(s) && Enabled(s, Step(id, e)) && s.calls[id].pc.StoreAccess?
    ensures Inv(Apply(s, Step(id, e)))
  {
    var (effect, pc) := Decision(s, id, e);
    CallHolds(s, id);
    if effect == Nothing {
      EmptyHandedMoveOk(s, id, pc);
      StepMoves(s, id, e);
      MoveKeepsInv(s, id, pc);
    } else {
      assert Apply(s, Step(id, e)) == AfterStoreAccess(s, id, effect.h, effect.accessRow);
      StoreAccessKeepsInv(s, id, effect.h, effect.accessRow);
    }
  }

  lemma StoreRefreshStepKeepsInv(s: State, id: CallId, e: Env)
    requires Inv(s) && Enabled(s, Step(id, e)) && s.calls[id].pc.StoreRefresh?
    ensures Inv(Apply(s, Step(id, e)))
  {
    var (effect, pc) := Decision(s, id, e);
    CallHolds(s, id);
    if effect == Nothing {
      FailedMoveOk(s, id);
      StepMoves(s, id, e);
      MoveKeepsInv(s, id, pc);
    } else {
      assert Apply(s, Step(id, e)) == AfterStoreRefresh(s, id, effect.h, effect.refreshRow);
      StoreRefreshKeepsInv(s, id, effect.h, effect.refreshRow);
    }
  }

  lemma SignStepKeepsInv(s: State, id: CallId, e: Env)
    requires Inv(s) && Enabled(s, Step(id, e)) && s.calls[id].pc.SignId?
    ensures Inv(Apply(s, Step(id, e)))
  {
    var pc := Decision(s, id, e).1;
    CallHolds(s, id);
    assert Holds(s, Seals) && Holds(s, Rows);
    SealsLeaveNoClaim(s, id);
    if pc == Done(Refused(ServerError)) {
      FailedMoveOk(s, id);
    } else if pc.Done? {
      GrantedMoveOk(s, id);
    } else {
      SignedMoveOk(s, id);
    }
    StepMoves(s, id, e);
    MoveKeepsInv(s, id, pc);
  }

  lemma SealsLeaveNoClaim(s: State, id: CallId)
    requires SealsOk(s) && id in s.calls
    ensures forall f :: f in s.past.marks.sealed ==> NoClaimLeft(s, s.calls[id].pc, f)
  {
  }

  lemma ReReadStepKeepsInv(s: State, id: CallId, e: Env)
    requires Inv(s) && Enabled(s, Step(id, e)) && s.calls[id].pc.ReRead?
    ensures Inv(Apply(s, Step(id, e)))
  {
    var pc := Decision(s, id, e).1;
    CallHolds(s, id);
    assert Holds(s, Seals) && Holds(s, Rows);
    SealsLeaveNoClaim(s, id);
    ReReadFinds(s, id, e);
    if pc.DelRefresh? {
      LostMoveOk(s, id);
      StartDeletingKeepsInv(s, id, e, pc.family);
    } else {
      if pc == Done(Refused(ServerError)) {
        FailedMoveOk(s, id);
      } else {
        GrantedMoveOk(s, id);
      }
      StepMoves(s, id, e);
      MoveKeepsInv(s, id, pc);
    }
  }

  /** The re-read of a claimed token fails exactly when its row is gone. */
  lemma ReReadFinds(s: State, id: CallId, e: Env)
    requires Enabled(s, Step(id, e)) && s.calls[id].pc.ReRead? && CallOk(s, id, s.calls[id]) && AllRefreshKnown(s)
    ensures Decision(s, id, e).0 == Nothing
    ensures !e.fails ==>
      (Decision(s, id, e).1 == DelRefresh(s.calls[id].pc.g.family) <==> s.calls[id].pc.g.claim.value !in s.db.refresh)
    ensures !e.fails && s.calls[id].pc.g.claim.value in s.db.refresh ==> var pc := s.calls[id].pc;
      Decision(s, id, e).1 == Done(Granted(pc.access, pc.refresh, pc.g.scope))
    ensures e.fails ==> Decision(s, id, e).1 == Done(Refused(ServerError))
  {
  }

  /** The two halves of a family deletion, when they take effect, on the states they lead to. */
  ghost function RefreshWiped(s: State, f: Family): State {
    var s1 := s.(db := Perform(s.db, WipeRefresh(f)));
    if NoExchangePending(s, f) then Sealed(s1, f) else s1
  }

  ghost function AccessWiped(s: State, f: Family): State {
    var s1 := s.(db := Perform(s.db, WipeAccess(f)));
    if f in s.past.marks.sealed then Wiped(s1, f) else s1
  }

  lemma RefreshWipedKeepsInv(s: State, id: CallId, f: Family)
    requires Inv(s) && id in s.calls && s.calls[id].pc == DelRefresh(f)
    ensures Inv(RefreshWiped(s, f))
  {
    var s1 := s.(db := Perform(s.db, WipeRefresh(f)));
    ShrinkKeepsInv(s, s1.db);
    if NoExchangePending(s, f) {
      SealAfterWipe(s1, id, f);
    }
  }

  lemma SealAfterWipe(s: State, id: CallId, f: Family)
    requires Inv(s) && id in s.calls && s.calls[id].pc == DelRefresh(f) && NoExchangePending(s, f)
    requires forall h :: h in s.db.refresh ==> s.db.refresh[h].family != f
    ensures Inv(Sealed(s, f))
  {
    CallHolds(s, id);
    assert Wiping(s, f);
    SealKeepsInv(s, f);
  }

  lemma WipeDealsWithRefresh(s: State, f: Family)
    requires CondemnedOk(s)
    ensures RefreshDealtWith(RefreshWiped(s, f), f)
  {
  }

  /** A call goes on to the access rows of a family. */
  lemma GoOnKeepsInv(s: State, id: CallId, f: Family)
    requires Inv(s) && id in s.calls && s.calls[id].pc == DelRefresh(f) && RefreshDealtWith(s, f)
    ensures Inv(Moved(s, id, DelAccess(f)))
  {
    CallHolds(s, id);
    assert Holds(s, Rows);
    WipedMoveOk(s, id, f);
    MoveKeepsInv(s, id, DelAccess(f));
  }

  lemma StepWipes(s: State, id: CallId, e: Env, f: Family)
    requires Enabled(s, Step(id, e)) && s.calls[id].pc == DelRefresh(f)
    ensures Apply(s, Step(id, e)) == Moved(if e.fails then Slipped(s, f) else RefreshWiped(s, f), id, DelAccess(f))
  {
  }

  lemma WipeStepKeepsInv(s: State, id: CallId, e: Env, f: Family)
    requires Inv(s) && Enabled(s, Step(id, e)) && s.calls[id].pc == DelRefresh(f)
    ensures Inv(Apply(s, Step(id, e)))
  {
    StepWipes(s, id, e, f);
    if e.fails {
      SlipKeepsInv(s, f);
      GoOnKeepsInv(Slipped(s, f), id, f);
    } else {
      RefreshWipedKeepsInv(s, id, f);
      assert Holds(s, Condemnations);
      WipeDealsWithRefresh(s, f);
      GoOnKeepsInv(RefreshWiped(s, f), id, f);
    }
  }

  lemma StepWipesAccess(s: State, id: CallId, e: Env, f: Family)
    requires Enabled(s, Step(id, e)) && s.calls[id].pc == DelAccess(f)
    ensures Apply(s, Step(id, e)) ==
      Moved(if e.fails then Slipped(s, f) else AccessWiped(s, f), id, Done(Revoked(s.calls[id].req)))
  {
  }

  lemma AccessWipedKeepsInv(s: State, f: Family)
    requires Inv(s)
    ensures Inv(AccessWiped(s, f))
  {
    var s1 := s.(db := Perform(s.db, WipeAccess(f)));
    ShrinkKeepsInv(s, s1.db);
    if f in s.past.marks.sealed {
      WipeKeepsInv(s1, f);
    }
  }

  /** A call that deleted a family is done. */
  lemma FinishKeepsInv(s: State, id: CallId, f: Family)
    requires Inv(s) && id in s.calls && s.calls[id].pc == DelAccess(f) && AccessDealtWith(s, f)
    ensures Inv(Moved(s, id, Done(Revoked(s.calls[id].req))))
  {
    CallHolds(s, id);
    FinishedMoveOk(s, id, f);
    MoveKeepsInv(s, id, Done(Revoked(s.calls[id].req)));
  }

  lemma WipeAccessStepKeepsInv(s: State, id: CallId, e: Env, f: Family)
    requires Inv(s) && Enabled(s, Step(id, e)) && s.calls[id].pc == DelAccess(f)
    ensures Inv(Apply(s, Step(id, e)))
  {
    StepWipesAccess(s, id, e, f);
    if e.fails {
      SlipKeepsInv(s, f);
      FinishKeepsInv(Slipped(s, f), id, f);
    } else {
      AccessWipedKeepsInv(s, f);
      FinishKeepsInv(AccessWiped(s, f), id, f);
    }
  }

  lemma StepKeepsInv(s: State, id: CallId, e: Env)
    requires Inv(s) && Enabled(s, Step(id, e))
    ensures Inv(Apply(s, Step(id, e)))
  {
    match s.calls[id].pc
    case RefreshRead => RefreshReadKeepsInv(s, id, e);
    case RefreshClaim(_, _) => RefreshClaimKeepsInv(s, id, e);
    case CodeConsume => ConsumeStepKeepsInv(s, id, e);
    case StoreAccess(_) => StoreAccessStepKeepsInv(s, id, e);
    case StoreRefresh(_, _) => StoreRefreshStepKeepsInv(s, id, e);
    case SignId(_, _, _) => SignStepKeepsInv(s, id, e);
    case ReRead(_, _, _) => ReReadStepKeepsInv(s, id, e);
    case DelRefresh(f) => WipeStepKeepsInv(s, id, e, f);
    case DelAccess(f) => WipeAccessStepKeepsInv(s, id, e, f);
    case RefreshDropExpired => DropStepKeepsInv(s, id, e);
    case CodeDropExpired => DropStepKeepsInv(s, id, e);
    case RevokeDropAccess => DropStepKeepsInv(s, id, e);
    case CodeRead => CodeReadKeepsInv(s, id, e);
    case RevokeRead => RevokeReadKeepsInv(s, id, e);
    case RevokeReadAccess => RevokeReadKeepsInv(s, id, e);
  }

  lemma EventKeepsInv(s: State, ev: Event)
    requires Inv(s) && Enabled(s, ev)
    ensures Inv(Apply(s, ev))
  {
    match ev
    case Begin(id, req) => BeginKeepsInv(s, id, req);
    case Step(id, e) => StepKeepsInv(s, id, e);
    case IssueCode(row) => IssueCodeKeepsInv(s, row);
    case CleanCodes => ShrinkKeepsInv(s, Apply(s, ev).db);
    case CleanAccess => ShrinkKeepsInv(s, Apply(s, ev).db);
    case CleanRefresh => ShrinkKeepsInv(s, Apply(s, ev).db);
    case Tick(to) => TickKeepsInv(s, to);
  }

  lemma {:induction false} RunInv(run: seq<State>, k: nat)
    requires IsRun(run) && k < |run|
    ensures Inv(run[k])
  {
    if k == 0 {
      var now :| run[0] == Init(now);
      InitInv(now);
    } else {
      RunInv(run, k - 1);
      assert StepAt(run, k - 1);
      var ev :| Enabled(run[k - 1], ev) && run[k] == Apply(run[k - 1], ev);
      EventKeepsInv(run[k - 1], ev);
    }
  }
}
