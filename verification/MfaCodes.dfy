/** Which codes are accepted: in every state of every run of MfaMachine, those of the steps they are taken for. */
module MfaCodes {
  import opened Common
  import opened Scopes
  import opened Totp
  import opened MfaTables
  import opened MfaCalls
  import opened MfaMachine
  import opened MfaOverlap
  import opened MfaTheorems

  /** The entered text is the code of the secret at the step. */
  predicate CodeAt(hotp: Hotp, secret: string, step: int, code: string) {
    |TrimSpace(code)| == 6 && hotp(secret, step) == TrimSpace(code)
  }

  /** The accepted code is that of its step for the secret that the call had read, and the one it was called with. */
  ghost predicate UseOk(hotp: Hotp, s: State, use: Use) {
    && CodeAt(hotp, use.checked, use.step, use.code)
    && use.call in s.calls && use.code == EnteredCode(s.calls[use.call].req)
    && use.call in s.past.read && s.past.read[use.call] == use.checked
  }

  /** A row that is confirmed keeps the secret with which it was confirmed. */
  predicate SameSecret(uses: seq<Use>) {
    forall i, j :: 0 <= i < j < |uses| ==> uses[i].secret == uses[j].secret
  }

  ghost predicate PcOk(hotp: Hotp, s: State, i: CallId, c: Call) {
    match c.pc
    case VerifyRead => i !in s.past.read && c.req.Verify?
    case ConfirmRead => i !in s.past.read && c.req.ConfirmTotpEnrollment?
    case VerifyStep(step, _, _) =>
      c.req.Verify? && i in s.past.read && CodeAt(hotp, s.past.read[i], step, c.req.code)
    case ConfirmStore(step, _) =>
      c.req.ConfirmTotpEnrollment? && i in s.past.read && CodeAt(hotp, s.past.read[i], step, c.req.code)
    case _ => true
  }

  ghost predicate EnrolmentOk(hotp: Hotp, s: State, uses: seq<Use>) {
    uses != [] && SameSecret(uses) && forall k :: 0 <= k < |uses| ==> UseOk(hotp, s, uses[k])
  }

  ghost predicate Codes(hotp: Hotp, s: State) {
    && s.past.read.Keys <= s.calls.Keys
    && (forall i :: i in s.calls ==> PcOk(hotp, s, i, s.calls[i]))
    && (forall n :: 0 <= n < |s.past.enrolments| ==> EnrolmentOk(hotp, s, s.past.enrolments[n]))
    && (Confirmed(s.user) && s.past.enrolments != [] ==>
          s.user.settings.value.secret == s.past.enrolments[|s.past.enrolments| - 1][0].secret)
  }

  // ----- Every event keeps it -----

  lemma MatchedIsCode(hotp: Hotp, secret: string, code: string, now: Time)
    requires MatchingStep(hotp, secret, code, now).Some?
    ensures CodeAt(hotp, secret, MatchingStep(hotp, secret, code, now).value, code)
  {
  }

  lemma StepperStaysOk(hotp: Hotp, s: State, i: CallId, e: Env)
    requires Enabled(s, Step(i, e)) && PcOk(hotp, s, i, s.calls[i])
    ensures var s' := Apply(hotp, s, Step(i, e)); PcOk(hotp, s', i, s'.calls[i])
  {
    var c := s.calls[i];
    if ReadsSecret(c.pc) && s.user.settings.Some? {
      var secret := s.user.settings.value.secret;
      if MatchingStep(hotp, secret, c.req.code, e.now).Some? {
        MatchedIsCode(hotp, secret, c.req.code, e.now);
      }
    }
  }

  /** What is recorded of the reads stays, and only the stepping call's can be added. */
  lemma StepRecordsRead(hotp: Hotp, s: State, i: CallId, e: Env)
    requires Enabled(s, Step(i, e))
    ensures var s' := Apply(hotp, s, Step(i, e));
      && (s'.past.read == s.past.read
          || (ReadsSecret(s.calls[i].pc) && s.user.settings.Some?
              && s'.past.read == s.past.read[i := s.user.settings.value.secret]))
      && s'.calls.Keys == s.calls.Keys && s'.calls[i].req == s.calls[i].req
      && forall k :: k in s.calls && k != i ==> s'.calls[k] == s.calls[k]
  {
  }

  lemma StepKeepsPcs(hotp: Hotp, s: State, i: CallId, e: Env)
    requires Codes(hotp, s) && Enabled(s, Step(i, e))
    ensures var s' := Apply(hotp, s, Step(i, e));
      s'.past.read.Keys <= s'.calls.Keys && forall k :: k in s'.calls ==> PcOk(hotp, s', k, s'.calls[k])
  {
    var s' := Apply(hotp, s, Step(i, e));
    StepRecordsRead(hotp, s, i, e);
    assert PcOk(hotp, s, i, s.calls[i]);
    StepperStaysOk(hotp, s, i, e);
    forall k | k in s'.calls ensures PcOk(hotp, s', k, s'.calls[k]) {
      if k != i {
        assert PcOk(hotp, s, k, s.calls[k]);
      }
    }
  }

  lemma UsesStayOk(hotp: Hotp, s: State, i: CallId, e: Env, uses: seq<Use>)
    requires Codes(hotp, s) && Enabled(s, Step(i, e)) && EnrolmentOk(hotp, s, uses)
    ensures EnrolmentOk(hotp, Apply(hotp, s, Step(i, e)), uses)
  {
    var s' := Apply(hotp, s, Step(i, e));
    StepRecordsRead(hotp, s, i, e);
    assert PcOk(hotp, s, i, s.calls[i]);
    forall k | 0 <= k < |uses| ensures UseOk(hotp, s', uses[k]) {
      assert UseOk(hotp, s, uses[k]);
    }
  }

  /** The use that a step of a call adds, if any, starts an enrolment or continues the current one. */
  lemma StepAddsUse(hotp: Hotp, s: State, i: CallId, e: Env) returns (use: Use)
    requires Enabled(s, Step(i, e))
    ensures var s' := Apply(hotp, s, Step(i, e));
      var xs, ys, pc := s.past.enrolments, s'.past.enrolments, s.calls[i].pc;
      || (ys == xs && (Confirmed(s'.user) && xs != [] ==>
                         Confirmed(s.user) && s'.user.settings.value.secret == s.user.settings.value.secret))
      || (s.user.settings.Some? && s'.user.settings.Some?
          && s'.user.settings.value.secret == s.user.settings.value.secret
          && ((pc.ConfirmStore? && use == UseOf(s, i, pc.step, pc.at) && ys == xs + [[use]])
              || (pc.VerifyStep? && use == UseOf(s, i, pc.step, pc.at) && Confirmed(s.user)
                  && xs != [] && ys == Extend(xs, use))))
  {
    var pc := s.calls[i].pc;
    use := if (pc.ConfirmStore? || pc.VerifyStep?) && s.user.settings.Some? then UseOf(s, i, pc.step, pc.at)
           else Use(i, 0, 0, "", "", "");
  }

  lemma AddedUseIsOk(hotp: Hotp, s: State, i: CallId, e: Env, use: Use)
    requires Codes(hotp, s) && Enabled(s, Step(i, e)) && s.user.settings.Some?
    requires s.calls[i].pc.ConfirmStore? || s.calls[i].pc.VerifyStep?
    requires use == UseOf(s, i, s.calls[i].pc.step, s.calls[i].pc.at)
    ensures UseOk(hotp, Apply(hotp, s, Step(i, e)), use)
  {
    StepRecordsRead(hotp, s, i, e);
    assert PcOk(hotp, s, i, s.calls[i]);
  }

  lemma StepKeepsUses(hotp: Hotp, s: State, i: CallId, e: Env, use: Use, n: nat)
    requires Codes(hotp, s) && Enabled(s, Step(i, e)) && n < |Apply(hotp, s, Step(i, e)).past.enrolments|
    requires var xs, ys := s.past.enrolments, Apply(hotp, s, Step(i, e)).past.enrolments;
      || ys == xs
      || (ys == xs + [[use]] && UseOk(hotp, Apply(hotp, s, Step(i, e)), use))
      || (xs != [] && ys == Extend(xs, use) && UseOk(hotp, Apply(hotp, s, Step(i, e)), use)
          && use.secret == xs[|xs| - 1][0].secret)
    ensures EnrolmentOk(hotp, Apply(hotp, s, Step(i, e)), Apply(hotp, s, Step(i, e)).past.enrolments[n])
  {
    var s' := Apply(hotp, s, Step(i, e));
    var xs, ys := s.past.enrolments, s'.past.enrolments;
    if n < |xs| {
      UsesStayOk(hotp, s, i, e, xs[n]);
      if ys[n] != xs[n] {
        assert ys[n] == xs[n] + [use];
      }
    } else {
      assert ys[n] == [use];
    }
  }

  lemma StepKeepsCodes(hotp: Hotp, s: State, i: CallId, e: Env)
    requires Codes(hotp, s) && Enabled(s, Step(i, e))
    ensures Codes(hotp, Apply(hotp, s, Step(i, e)))
  {
    var s' := Apply(hotp, s, Step(i, e));
    StepKeepsPcs(hotp, s, i, e);
    var use := StepAddsUse(hotp, s, i, e);
    if s'.past.enrolments != s.past.enrolments {
      AddedUseIsOk(hotp, s, i, e, use);
    }
    forall n | 0 <= n < |s'.past.enrolments| ensures EnrolmentOk(hotp, s', s'.past.enrolments[n]) {
      StepKeepsUses(hotp, s, i, e, use, n);
    }
  }

  lemma EventKeepsCodes(hotp: Hotp, s: State, ev: Event)
    requires Codes(hotp, s) && Enabled(s, ev)
    ensures Codes(hotp, Apply(hotp, s, ev))
  {
    if ev.Step? {
      StepKeepsCodes(hotp, s, ev.id, ev.env);
    } else {
      var s' := Apply(hotp, s, ev);
      forall k | k in s'.calls ensures PcOk(hotp, s', k, s'.calls[k]) {
        assert k in s.calls ==> PcOk(hotp, s, k, s.calls[k]);
      }
      forall n | 0 <= n < |s'.past.enrolments| ensures EnrolmentOk(hotp, s', s'.past.enrolments[n]) {
        assert EnrolmentOk(hotp, s, s.past.enrolments[n]);
      }
    }
  }

  lemma {:induction false} RunCodes(hotp: Hotp, run: seq<State>, k: nat)
    requires IsRun(hotp, run) && k < |run|
    ensures Codes(hotp, run[k])
  {
    if k > 0 {
      RunCodes(hotp, run, k - 1);
      assert StepAt(hotp, run, k - 1);
      var ev :| Enabled(run[k - 1], ev) && run[k] == Apply(hotp, run[k - 1], ev);
      EventKeepsCodes(hotp, run[k - 1], ev);
    }
  }

  // ----- The theorems -----

  /** Every code that was ever accepted, the confirming one included, is the code of the step it was taken for,
      of the secret that its call read, as it was entered into that call. */
  lemma AcceptedCodesAreCodes(hotp: Hotp, run: seq<State>, k: nat, n: nat, i: nat)
    requires IsRun(hotp, run) && k < |run|
    requires n < |run[k].past.enrolments| && i < |run[k].past.enrolments[n]|
    ensures var s, use := run[k], run[k].past.enrolments[n][i];
      && use.call in s.calls
      && (s.calls[use.call].req == Verify(use.code)
          || exists issued :: s.calls[use.call].req == ConfirmTotpEnrollment(use.code, issued))
      && |TrimSpace(use.code)| == 6 && hotp(use.checked, use.step) == TrimSpace(use.code)
      && use.call in s.past.read && s.past.read[use.call] == use.checked
  {
    RunCodes(hotp, run, k);
    var s, use := run[k], run[k].past.enrolments[n][i];
    assert EnrolmentOk(hotp, s, s.past.enrolments[n]);
    assert UseOk(hotp, s, use);
    var req := s.calls[use.call].req;
    assert !(req.Verify? || req.ConfirmTotpEnrollment?) ==> use.code == "";
    assert TrimSpace("") == "";
  }

  /** No code is accepted twice in an enrolment, unless it is the code of two different steps. */
  lemma NoCodeIsAcceptedTwice(hotp: Hotp, run: seq<State>, k: nat, n: nat, i: nat, j: nat)
    requires IsRun(hotp, run) && k < |run|
    requires n < |run[k].past.enrolments| && i < j < |run[k].past.enrolments[n]|
    requires var uses := run[k].past.enrolments[n]; TrimSpace(uses[i].code) == TrimSpace(uses[j].code)
    ensures var uses := run[k].past.enrolments[n];
      && uses[i].step < uses[j].step && uses[i].secret == uses[j].secret
      && hotp(uses[i].checked, uses[i].step) == hotp(uses[j].checked, uses[j].step) == TrimSpace(uses[i].code)
  {
    AcceptedStepsRise(hotp, run, k, n, i, j);
    AcceptedCodesAreCodes(hotp, run, k, n, i);
    AcceptedCodesAreCodes(hotp, run, k, n, j);
    RunCodes(hotp, run, k);
    assert EnrolmentOk(hotp, run[k], run[k].past.enrolments[n]);
  }

  // ----- Which secret is confirmed -----

  lemma NextKeepsRead(hotp: Hotp, s: State, s': State, i: CallId)
    requires Codes(hotp, s) && Next(hotp, s, s') && i in s.past.read
    ensures i in s'.past.read && s'.past.read[i] == s.past.read[i]
  {
    var ev :| Enabled(s, ev) && s' == Apply(hotp, s, ev);
    if ev.Step? {
      assert PcOk(hotp, s, ev.id, s.calls[ev.id]);
      StepRecordsRead(hotp, s, ev.id, ev.env);
    }
  }

  lemma {:induction false} ReadStays(hotp: Hotp, run: seq<State>, m: nat, n: nat, i: CallId)
    requires IsRun(hotp, run) && m <= n < |run| && i in run[m].past.read
    ensures i in run[n].past.read && run[n].past.read[i] == run[m].past.read[i]
    decreases n - m
  {
    if m < n {
      RunCodes(hotp, run, m);
      assert StepAt(hotp, run, m);
      NextKeepsRead(hotp, run[m], run[m + 1], i);
      ReadStays(hotp, run, m + 1, n, i);
    }
  }

  /**
   * A confirmation reads the row in state m and confirms in state n. The secret that it confirms is the one whose
   * code it checked exactly if the row still holds that secret: the statement does not compare it.
   */
  lemma ConfirmedSecretWasChecked(hotp: Hotp, run: seq<State>, m: nat, n: nat, i: CallId, e: Env, e': Env)
    requires IsRun(hotp, run) && m < n < |run| && Enabled(run[m], Step(i, e)) && Enabled(run[n], Step(i, e'))
    requires run[m + 1] == Apply(hotp, run[m], Step(i, e)) && run[m].calls[i].pc.ConfirmRead?
    requires run[n].calls[i].pc.ConfirmStore? && Pending(run[m].user)
    requires |Apply(hotp, run[n], Step(i, e')).past.enrolments| > |run[n].past.enrolments|
    ensures run[n].user.settings.Some?
    ensures var enrolments := Apply(hotp, run[n], Step(i, e')).past.enrolments;
      && |enrolments| == |run[n].past.enrolments| + 1 && |enrolments[|run[n].past.enrolments|]| == 1
      && var use := enrolments[|run[n].past.enrolments|][0];
      && use.call == i && use.secret == run[n].user.settings.value.secret
      && (use.checked == use.secret <==>
            run[n].user.settings.value.secret == run[m].user.settings.value.secret)
  {
    assert i in run[m + 1].past.read && run[m + 1].past.read[i] == run[m].user.settings.value.secret;
    ReadStays(hotp, run, m + 1, n, i);
  }

  lemma RunOneMore(hotp: Hotp, run: seq<State>, ev: Event)
    requires IsRun(hotp, run) && Enabled(run[|run| - 1], ev)
    ensures IsRun(hotp, run + [Apply(hotp, run[|run| - 1], ev)])
  {
    var more := run + [Apply(hotp, run[|run| - 1], ev)];
    forall k: nat | k + 1 < |more| ensures StepAt(hotp, more, k) {
      if k < |run| - 1 {
        assert StepAt(hotp, run, k);
      }
    }
  }

  const OTHER_SECRET := "other"

  /** A pending row with the given secret. */
  function PendingRow(secret: string): UserMfa {
    UserMfa(Some(Settings(secret, None, 0, 0, None, NOW)), map[])
  }

  lemma SaveStep(hotp: Hotp, s: State, i: CallId, secret: string)
    requires i in s.calls && s.calls[i] == Call(BeginTotpEnrollment(secret), EnrollSave) && s.now == NOW
    requires s.user.codes == map[] && !Confirmed(s.user)
    ensures Enabled(s, Step(i, STEP_ENV))
    ensures var s' := Apply(hotp, s, Step(i, STEP_ENV));
      && s'.user == PendingRow(secret) && s'.now == NOW && s'.past == s.past
      && s'.calls == s.calls[i := Call(s.calls[i].req, Done(Succeeded))]
  {
  }

  lemma ReadStep(hotp: Hotp, s: State, i: CallId, code: string)
    requires i in s.calls && s.calls[i] == Call(ConfirmTotpEnrollment(code, []), ConfirmRead) && s.now == NOW
    requires s.user == PendingRow(SECRET) && MatchingStep(hotp, SECRET, code, NOW).Some?
    ensures Enabled(s, Step(i, STEP_ENV))
    ensures var s', step := Apply(hotp, s, Step(i, STEP_ENV)), MatchingStep(hotp, SECRET, code, NOW).value;
      && s'.user == s.user && s'.now == NOW && s'.past == s.past.(read := s.past.read[i := SECRET])
      && s'.calls == s.calls[i := Call(s.calls[i].req, ConfirmStore(step, NOW))]
  {
  }

  lemma StoreStep(hotp: Hotp, s: State, i: CallId, code: string)
    requires i in s.calls && s.calls[i].req == ConfirmTotpEnrollment(code, []) && s.calls[i].pc.ConfirmStore?
    requires s.user == PendingRow(OTHER_SECRET) && s.now == NOW && i in s.past.read && s.past.read[i] == SECRET
    ensures Enabled(s, Step(i, STEP_ENV))
    ensures var s' := Apply(hotp, s, Step(i, STEP_ENV));
      && Confirmed(s'.user) && s'.user.settings.value.secret == OTHER_SECRET
      && |s'.past.enrolments| == |s.past.enrolments| + 1 && |s'.past.enrolments[|s.past.enrolments|]| == 1
      && s'.past.enrolments[|s.past.enrolments|][0].checked == SECRET
      && s'.past.enrolments[|s.past.enrolments|][0].secret == OTHER_SECRET
  {
  }

  /** It does happen: an enrolment that is begun again between the two statements of a confirmation is confirmed
      by a code of the secret it replaced. */
  lemma AnotherSecretIsConfirmed(hotp: Hotp) returns (run: seq<State>)
    requires SixDigits(hotp)
    ensures IsRun(hotp, run)
    ensures var s := run[|run| - 1];
      && Confirmed(s.user) && s.user.settings.value.secret == OTHER_SECRET
      && |s.past.enrolments| == 1 && |s.past.enrolments[0]| == 1
      && s.past.enrolments[0][0].checked == SECRET != OTHER_SECRET
  {
    var code := RightCode(hotp);
    var first, confirm := Begin(0, BeginTotpEnrollment(SECRET)), Begin(1, ConfirmTotpEnrollment(code, []));
    var second := Begin(2, BeginTotpEnrollment(OTHER_SECRET));
    var s0 := State(UserMfa(None, map[]), map[], NOW, History([], [], 0, map[]));
    run := [s0];
    RunOneMore(hotp, run, first);
    var s1 := Apply(hotp, s0, first);
    RunOneMore(hotp, run + [s1], confirm);
    var s2 := Apply(hotp, s1, confirm);
    RunOneMore(hotp, run + [s1] + [s2], second);
    var s3 := Apply(hotp, s2, second);
    run := run + [s1] + [s2] + [s3];
    run := AnotherSecretRuns(hotp, run, code);
  }

  lemma AnotherSecretRuns(hotp: Hotp, before: seq<State>, code: string) returns (run: seq<State>)
    requires IsRun(hotp, before) && MatchingStep(hotp, SECRET, code, NOW).Some?
    requires var s := before[|before| - 1];
      && s.user == UserMfa(None, map[]) && s.now == NOW && s.past == History([], [], 0, map[])
      && s.calls == map[0 := Call(BeginTotpEnrollment(SECRET), EnrollSave),
                        1 := Call(ConfirmTotpEnrollment(code, []), ConfirmRead),
                        2 := Call(BeginTotpEnrollment(OTHER_SECRET), EnrollSave)]
    ensures IsRun(hotp, run)
    ensures var s := run[|run| - 1];
      && Confirmed(s.user) && s.user.settings.value.secret == OTHER_SECRET
      && |s.past.enrolments| == 1 && |s.past.enrolments[0]| == 1
      && s.past.enrolments[0][0].checked == SECRET
  {
    var s := before[|before| - 1];
    SaveStep(hotp, s, 0, SECRET);
    RunOneMore(hotp, before, Step(0, STEP_ENV));
    var s1 := Apply(hotp, s, Step(0, STEP_ENV));
    ReadStep(hotp, s1, 1, code);
    RunOneMore(hotp, before + [s1], Step(1, STEP_ENV));
    var s2 := Apply(hotp, s1, Step(1, STEP_ENV));
    SaveStep(hotp, s2, 2, OTHER_SECRET);
    RunOneMore(hotp, before + [s1] + [s2], Step(2, STEP_ENV));
    var s3 := Apply(hotp, s2, Step(2, STEP_ENV));
    StoreStep(hotp, s3, 1, code);
    RunOneMore(hotp, before + [s1] + [s2] + [s3], Step(1, STEP_ENV));
    run := before + [s1] + [s2] + [s3] + [Apply(hotp, s3, Step(1, STEP_ENV))];
  }
}
