/** The second-factor calls of one user, interleaved statement by statement. */
module MfaMachine {
  import opened Common
  import opened Totp
  import opened MfaTables
  import opened MfaCalls

  type CallId = nat

  /** A call used a TOTP code of the given step, which it had checked at the given time: the code that was
      entered, the secret it was checked against, and the secret of the row that took the step. */
  datatype Use = Use(call: CallId, step: int, at: Time, code: string, checked: string, secret: string)

  /** The codes accepted in each enrolment so far, the one that confirmed it first; the recovery codes accepted
      since a set of them was last issued, with the number issued; and the secret that each call has read. */
  datatype History = History(enrolments: seq<seq<Use>>, spent: seq<Hash>, issued: nat, read: map<CallId, string>)

  datatype State = State(user: UserMfa, calls: map<CallId, Call>, now: Time, past: History)

  datatype Event =
    | Begin(id: CallId, req: Request)
    | Step(id: CallId, env: Env)
    | Tick(to: Time)

  ghost predicate Enabled(s: State, ev: Event) {
    match ev
    case Begin(id, _) => id !in s.calls
    case Step(id, e) => id in s.calls && !s.calls[id].pc.Done? && WellFormed(s.calls[id]) && e.now == s.now
    case Tick(to) => s.now <= to
  }

  function Extend(enrolments: seq<seq<Use>>, use: Use): seq<seq<Use>>
    requires enrolments != []
  {
    enrolments[|enrolments| - 1 := enrolments[|enrolments| - 1] + [use]]
  }

  predicate ReadsSecret(pc: Pc) {
    pc.VerifyRead? || pc.ConfirmRead?
  }

  function EnteredCode(req: Request): string {
    if req.Verify? || req.ConfirmTotpEnrollment? then req.code else ""
  }

  /** What is recorded of a call that uses a step of the row. */
  ghost function UseOf(s: State, id: CallId, step: int, at: Time): Use
    requires id in s.calls && s.user.settings.Some?
  {
    Use(id, step, at, EnteredCode(s.calls[id].req), if id in s.past.read then s.past.read[id] else "",
        s.user.settings.value.secret)
  }

  ghost function Recorded(s: State, id: CallId, effect: Effect): History
    requires id in s.calls
  {
    var h, u, pc := s.past, s.user, s.calls[id].pc;
    match effect
    case Confirm(step, issued) =>
      if Confirmable(u, issued) && pc.ConfirmStore? then
        h.(enrolments := h.enrolments + [[UseOf(s, id, step, pc.at)]], spent := [], issued := |issued|)
      else h
    case UseStep(step) =>
      if StepFresh(u, step) && pc.VerifyStep? && h.enrolments != [] then
        h.(enrolments := Extend(h.enrolments, UseOf(s, id, step, pc.at)))
      else h
    case UseCode(t) => if CodeUnused(u, t) then h.(spent := h.spent + [t]) else h
    case ReplaceCodes(issued) => if Distinct(issued) then h.(spent := [], issued := |issued|) else h
    case DeleteAll => h.(spent := [], issued := 0)
    case Nothing =>
      if ReadsSecret(pc) && u.settings.Some? then h.(read := h.read[id := u.settings.value.secret]) else h
    case _ => h
  }

  ghost function Apply(hotp: Hotp, s: State, ev: Event): State
    requires Enabled(s, ev)
  {
    match ev
    case Begin(id, req) => s.(calls := s.calls[id := Call(req, Start(req))])
    case Step(id, e) =>
      var (effect, pc) := Decide(hotp, s.user, s.calls[id], e);
      State(Perform(s.user, effect, e.now), s.calls[id := s.calls[id].(pc := pc)], s.now, Recorded(s, id, effect))
    case Tick(to) => s.(now := to)
  }

  ghost predicate Next(hotp: Hotp, s: State, s': State) {
    exists ev :: Enabled(s, ev) && s' == Apply(hotp, s, ev)
  }

  /** The k-th state of the run leads to the next. */
  ghost predicate StepAt(hotp: Hotp, run: seq<State>, k: nat) {
    k + 1 < |run| && Next(hotp, run[k], run[k + 1])
  }

  ghost predicate IsRun(hotp: Hotp, run: seq<State>) {
    && |run| > 0
    && (exists now :: run[0] == State(UserMfa(None, map[]), map[], now, History([], [], 0, map[])))
    && forall k: nat :: k + 1 < |run| ==> StepAt(hotp, run, k)
  }

  // ----- The invariant -----

  /** The step lies within the skew of the time at which its code was checked. */
  predicate Near(step: int, at: Time) {
    TimeStep(at) - SKEW <= step <= TimeStep(at) + SKEW
  }

  /** Each accepted step is later than every step accepted before it. */
  predicate Rising(uses: seq<Use>) {
    && (forall i, j :: 0 <= i < j < |uses| ==> uses[i].step < uses[j].step)
    && (forall i :: 0 <= i < |uses| ==> Near(uses[i].step, uses[i].at))
  }

  predicate EnrolmentsOk(u: UserMfa, past: History) {
    && (forall e :: 0 <= e < |past.enrolments| ==> Rising(past.enrolments[e]))
    && (Confirmed(u) ==>
          && past.enrolments != []
          && var uses := past.enrolments[|past.enrolments| - 1];
          && uses != [] && uses[|uses| - 1].step == u.settings.value.lastUsedStep)
  }

  ghost predicate RecoveryOk(u: UserMfa, past: History) {
    && Distinct(past.spent)
    && (forall h :: h in past.spent <==> h in u.codes && u.codes[h])
    && |u.codes| == past.issued
  }

  /** Some accepted code is this call's. */
  ghost predicate UsedBy(past: History, i: CallId) {
    exists e, k :: 0 <= e < |past.enrolments| && 0 <= k < |past.enrolments[e]| && past.enrolments[e][k].call == i
  }

  ghost predicate CallOk(past: History, i: CallId, c: Call) {
    && WellFormed(c)
    && match c.pc
       case ConfirmStore(step, at) => Near(step, at)
       case VerifyStep(step, _, at) => Near(step, at)
       case Done(AcceptedTotp) => UsedBy(past, i)
       case _ => true
  }

  ghost predicate Inv(s: State) {
    && EnrolmentsOk(s.user, s.past)
    && RecoveryOk(s.user, s.past)
    && forall i :: i in s.calls ==> CallOk(s.past, i, s.calls[i])
  }

  // ----- Every event keeps it -----

  lemma UnusedIsIssued(issued: seq<Hash>)
    requires Distinct(issued)
    ensures |Unused(issued)| == |issued|
  {
    if issued == [] {
    } else {
      var n := |issued| - 1;
      UnusedIsIssued(issued[..n]);
      assert Unused(issued) == Unused(issued[..n])[issued[n] := false];
    }
  }

  lemma StepKeepsRecovery(hotp: Hotp, s: State, i: CallId, e: Env)
    requires RecoveryOk(s.user, s.past) && Enabled(s, Step(i, e))
    ensures var s' := Apply(hotp, s, Step(i, e)); RecoveryOk(s'.user, s'.past)
  {
    var (effect, pc) := Decide(hotp, s.user, s.calls[i], e);
    match effect
    case Confirm(_, issued) => if Distinct(issued) { UnusedIsIssued(issued); }
    case ReplaceCodes(issued) => if Distinct(issued) { UnusedIsIssued(issued); }
    case UseCode(t) =>
      if CodeUnused(s.user, t) {
        assert s.user.codes[t := true].Keys == s.user.codes.Keys;
      }
    case _ =>
  }

  lemma ExtendRises(enrolments: seq<seq<Use>>, use: Use)
    requires enrolments != [] && Near(use.step, use.at)
    requires forall e :: 0 <= e < |enrolments| ==> Rising(enrolments[e])
    requires var uses := enrolments[|enrolments| - 1]; uses != [] ==> uses[|uses| - 1].step < use.step
    ensures forall e :: 0 <= e < |enrolments| ==> Rising(Extend(enrolments, use)[e])
  {
  }

  lemma StepKeepsEnrolments(hotp: Hotp, s: State, i: CallId, e: Env)
    requires EnrolmentsOk(s.user, s.past) && Enabled(s, Step(i, e)) && CallOk(s.past, i, s.calls[i])
    ensures var s' := Apply(hotp, s, Step(i, e)); EnrolmentsOk(s'.user, s'.past)
  {
    var (effect, pc) := Decide(hotp, s.user, s.calls[i], e);
    match effect
    case UseStep(step) =>
      if StepFresh(s.user, step) {
        ExtendRises(s.past.enrolments, UseOf(s, i, step, s.calls[i].pc.at));
      }
    case _ =>
  }

  lemma StepKeepsCalls(hotp: Hotp, s: State, i: CallId, e: Env)
    requires Inv(s) && Enabled(s, Step(i, e))
    ensures var s' := Apply(hotp, s, Step(i, e)); forall k :: k in s'.calls ==> CallOk(s'.past, k, s'.calls[k])
  {
    var s' := Apply(hotp, s, Step(i, e));
    forall k | k in s.calls && UsedBy(s.past, k) ensures UsedBy(s'.past, k) {
      UseStays(hotp, s, i, e, k);
    }
    if s'.calls[i].pc == Done(AcceptedTotp) {
      AcceptanceIsRecorded(hotp, s, i, e);
    }
    StepStaysWellFormed(hotp, s.user, s.calls[i], e);
    forall k | k in s'.calls ensures CallOk(s'.past, k, s'.calls[k]) {
      assert CallOk(s.past, k, s.calls[k]);
    }
  }

  lemma UseStays(hotp: Hotp, s: State, i: CallId, e: Env, k: CallId)
    requires Enabled(s, Step(i, e)) && UsedBy(s.past, k)
    ensures UsedBy(Apply(hotp, s, Step(i, e)).past, k)
  {
    var s' := Apply(hotp, s, Step(i, e));
    var n, m :| 0 <= n < |s.past.enrolments| && 0 <= m < |s.past.enrolments[n]| && s.past.enrolments[n][m].call == k;
    assert s'.past.enrolments[n][m] == s.past.enrolments[n][m];
  }

  lemma AcceptanceIsRecorded(hotp: Hotp, s: State, i: CallId, e: Env)
    requires EnrolmentsOk(s.user, s.past) && Enabled(s, Step(i, e))
    requires Decide(hotp, s.user, s.calls[i], e).1 == Done(AcceptedTotp)
    ensures UsedBy(Apply(hotp, s, Step(i, e)).past, i)
  {
    var s' := Apply(hotp, s, Step(i, e));
    var n := |s'.past.enrolments| - 1;
    var m := |s'.past.enrolments[n]| - 1;
    assert s'.past.enrolments[n][m].call == i;
  }

  lemma EventKeepsInv(hotp: Hotp, s: State, ev: Event)
    requires Inv(s) && Enabled(s, ev)
    ensures Inv(Apply(hotp, s, ev))
  {
    match ev
    case Step(i, e) =>
      assert CallOk(s.past, i, s.calls[i]);
      StepKeepsRecovery(hotp, s, i, e);
      StepKeepsEnrolments(hotp, s, i, e);
      StepKeepsCalls(hotp, s, i, e);
    case _ =>
  }

  lemma {:induction false} RunInv(hotp: Hotp, run: seq<State>, k: nat)
    requires IsRun(hotp, run) && k < |run|
    ensures Inv(run[k])
  {
    if k > 0 {
      RunInv(hotp, run, k - 1);
      assert StepAt(hotp, run, k - 1);
      var ev :| Enabled(run[k - 1], ev) && run[k] == Apply(hotp, run[k - 1], ev);
      EventKeepsInv(hotp, run[k - 1], ev);
    }
  }
}
