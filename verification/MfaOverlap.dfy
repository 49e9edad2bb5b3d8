/**
 * The lockout under interleaving. A call reads the row, checks the code and counts a failure in separate
 * statements, so calls that overlap can all pass the lock check; these are the only ones that can.
 */
module MfaOverlap {
  import opened Common
  import opened Scopes
  import opened Totp
  import opened MfaTables
  import opened MfaCalls
  import opened MfaMachine

  /** When a Verify call read the row: in which count of failures, and how many it already held. */
  datatype Read = Read(count: nat, seen: nat)

  /** A rejected code: when it was checked, and the read that let it be. */
  datatype Rejection = Rejection(at: Time, read: Read)

  /** The rejections counted since the row was last cleared, stored or deleted; count numbers these periods. */
  datatype Tally = Tally(count: nat, rejections: seq<Rejection>, views: map<CallId, Read>)

  predicate Clears(u: UserMfa, effect: Effect) {
    match effect
    case SavePending(_) => !Confirmed(u)
    case Confirm(_, issued) => Confirmable(u, issued)
    case UseStep(step) => StepFresh(u, step)
    case UseCode(h) => CodeUnused(u, h)
    case DeleteAll => true
    case _ => false
  }

  predicate Checking(pc: Pc) {
    pc.VerifyStep? || pc.VerifyCode? || pc.VerifyFail?
  }

  ghost function AfterStep(hotp: Hotp, s: State, t: Tally, i: CallId, e: Env): Tally
    requires Enabled(s, Step(i, e))
  {
    var c := s.calls[i];
    var (effect, pc) := Decide(hotp, s.user, c, e);
    if Clears(s.user, effect) then t.(count := t.count + 1, rejections := [])
    else if effect.RecordFailure? && s.user.settings.Some? && c.pc.VerifyFail? && i in t.views then
      t.(rejections := t.rejections + [Rejection(c.pc.at, t.views[i])])
    else if c.pc.VerifyRead? && Checking(pc) then t.(views := t.views[i := Read(t.count, |t.rejections|)])
    else t
  }

  ghost function Tallied(hotp: Hotp, s: State, t: Tally, ev: Event): Tally
    requires Enabled(s, ev)
  {
    if ev.Step? then AfterStep(hotp, s, t, ev.id, ev.env) else t
  }

  ghost predicate TalliedNext(hotp: Hotp, s: State, t: Tally, s': State, t': Tally) {
    exists ev :: Enabled(s, ev) && s' == Apply(hotp, s, ev) && t' == Tallied(hotp, s, t, ev)
  }

  /** A run of the machine, with the tally of its rejections. */
  ghost predicate IsTalliedRun(hotp: Hotp, run: seq<State>, tallies: seq<Tally>) {
    && |run| == |tallies| > 0
    && run[0].user == UserMfa(None, map[]) && run[0].calls == map[] && tallies[0] == Tally(0, [], map[])
    && forall k :: 0 <= k < |run| - 1 ==> TalliedNext(hotp, run[k], tallies[k], run[k + 1], tallies[k + 1])
  }

  // ----- The invariant -----

  /** A code checked at the given time by a call that read the row like this came after the lock of the last
      rejection the call could see. */
  predicate AfterLock(t: Tally, at: Time, r: Read, n: nat)
    requires n <= |t.rejections|
  {
    && r.count <= t.count
    && (r.count == t.count ==>
          r.seen <= n && (r.seen >= MAX_FAILURES ==> at >= t.rejections[r.seen - 1].at + LOCKOUT))
  }

  predicate RejectionOk(t: Tally, k: nat)
    requires k < |t.rejections|
  {
    AfterLock(t, t.rejections[k].at, t.rejections[k].read, k)
  }

  /** The row tells how many codes were rejected and when the last of them was checked. */
  predicate RowTallies(u: UserMfa, t: Tally) {
    var n := |t.rejections|;
    if u.settings.Some? then
      && u.settings.value.failed == n
      && u.settings.value.lockedUntil ==
         (if n >= MAX_FAILURES then Some(t.rejections[n - 1].at + LOCKOUT) else None)
    else n == 0
  }

  predicate CallTallies(t: Tally, i: CallId, c: Call) {
    WellFormed(c) && (Checking(c.pc) ==> i in t.views && AfterLock(t, c.pc.at, t.views[i], |t.rejections|))
  }

  ghost predicate Inv(s: State, t: Tally) {
    && RowTallies(s.user, t)
    && (forall k :: 0 <= k < |t.rejections| ==> RejectionOk(t, k))
    && (forall i :: i in s.calls ==> CallTallies(t, i, s.calls[i]))
  }

  /** The tally only grows, or starts over. */
  ghost predicate Grows(t: Tally, t': Tally) {
    || (t'.count == t.count && t.rejections <= t'.rejections)
    || (t'.count == t.count + 1 && t'.rejections == [])
  }

  lemma GrowKeepsAfterLock(t: Tally, t': Tally, at: Time, r: Read, n: nat, n': nat)
    requires Grows(t, t') && n <= |t.rejections| && n <= n' <= |t'.rejections| && AfterLock(t, at, r, n)
    ensures AfterLock(t', at, r, n')
  {
  }

  lemma StartOverKeepsAfterLock(t: Tally, t': Tally, at: Time, r: Read, n: nat)
    requires t'.count == t.count + 1 && t'.rejections == [] && n <= |t.rejections| && AfterLock(t, at, r, n)
    ensures AfterLock(t', at, r, 0)
  {
  }

  lemma StepKeepsRow(hotp: Hotp, s: State, t: Tally, i: CallId, e: Env)
    requires RowTallies(s.user, t) && Enabled(s, Step(i, e)) && CallTallies(t, i, s.calls[i])
    ensures RowTallies(Apply(hotp, s, Step(i, e)).user, AfterStep(hotp, s, t, i, e))
    ensures Grows(t, AfterStep(hotp, s, t, i, e))
  {
  }

  lemma StepKeepsRejections(hotp: Hotp, s: State, t: Tally, i: CallId, e: Env)
    requires Inv(s, t) && Enabled(s, Step(i, e))
    ensures var t' := AfterStep(hotp, s, t, i, e); forall k :: 0 <= k < |t'.rejections| ==> RejectionOk(t', k)
  {
    var t' := AfterStep(hotp, s, t, i, e);
    StepKeepsRow(hotp, s, t, i, e);
    forall k | 0 <= k < |t'.rejections| ensures RejectionOk(t', k) {
      if k < |t.rejections| {
        assert RejectionOk(t, k);
        GrowKeepsAfterLock(t, t', t.rejections[k].at, t.rejections[k].read, k, k);
      } else {
        assert CallTallies(t, i, s.calls[i]);
      }
    }
  }

  /** A call that passes the lock check passes the lock of every rejection counted so far. */
  lemma ReaderIsAfterLock(hotp: Hotp, s: State, t: Tally, i: CallId, e: Env)
    requires RowTallies(s.user, t) && Enabled(s, Step(i, e)) && s.calls[i].pc.VerifyRead?
    ensures var (t', s') := (AfterStep(hotp, s, t, i, e), Apply(hotp, s, Step(i, e)));
      WellFormed(s'.calls[i]) && CallTallies(t', i, s'.calls[i])
  {
    StepStaysWellFormed(hotp, s.user, s.calls[i], e);
  }

  lemma StepperTallies(hotp: Hotp, s: State, t: Tally, i: CallId, e: Env)
    requires RowTallies(s.user, t) && Enabled(s, Step(i, e)) && CallTallies(t, i, s.calls[i])
    ensures CallTallies(AfterStep(hotp, s, t, i, e), i, Apply(hotp, s, Step(i, e)).calls[i])
  {
    if s.calls[i].pc.VerifyRead? {
      ReaderIsAfterLock(hotp, s, t, i, e);
    } else {
      StepStaysWellFormed(hotp, s.user, s.calls[i], e);
    }
  }

  lemma StepKeepsCalls(hotp: Hotp, s: State, t: Tally, i: CallId, e: Env)
    requires Inv(s, t) && Enabled(s, Step(i, e))
    ensures var (t', s') := (AfterStep(hotp, s, t, i, e), Apply(hotp, s, Step(i, e)));
      forall k :: k in s'.calls ==> CallTallies(t', k, s'.calls[k])
  {
    var (t', s') := (AfterStep(hotp, s, t, i, e), Apply(hotp, s, Step(i, e)));
    assert CallTallies(t, i, s.calls[i]);
    StepKeepsRow(hotp, s, t, i, e);
    StepperTallies(hotp, s, t, i, e);
    forall k | k in s'.calls ensures CallTallies(t', k, s'.calls[k]) {
      if k != i {
        var c := s.calls[k];
        assert CallTallies(t, k, c);
        if Checking(c.pc) {
          OtherTallies(t, t', k, c.pc.at);
        }
      }
    }
  }

  lemma OtherTallies(t: Tally, t': Tally, k: CallId, at: Time)
    requires Grows(t, t') && k in t.views && k in t'.views && t'.views[k] == t.views[k]
    requires AfterLock(t, at, t.views[k], |t.rejections|)
    ensures AfterLock(t', at, t'.views[k], |t'.rejections|)
  {
    if t'.count == t.count {
      GrowKeepsAfterLock(t, t', at, t.views[k], |t.rejections|, |t'.rejections|);
    } else {
      StartOverKeepsAfterLock(t, t', at, t.views[k], |t.rejections|);
    }
  }

  lemma EventKeepsInv(hotp: Hotp, s: State, t: Tally, ev: Event)
    requires Inv(s, t) && Enabled(s, ev)
    ensures Inv(Apply(hotp, s, ev), Tallied(hotp, s, t, ev))
  {
    if ev.Step? {
      assert CallTallies(t, ev.id, s.calls[ev.id]);
      StepKeepsRow(hotp, s, t, ev.id, ev.env);
      StepKeepsRejections(hotp, s, t, ev.id, ev.env);
      StepKeepsCalls(hotp, s, t, ev.id, ev.env);
    }
  }

  lemma {:induction false} RunInv(hotp: Hotp, run: seq<State>, tallies: seq<Tally>, k: nat)
    requires IsTalliedRun(hotp, run, tallies) && k < |run|
    ensures Inv(run[k], tallies[k])
  {
    if k > 0 {
      RunInv(hotp, run, tallies, k - 1);
      assert TalliedNext(hotp, run[k - 1], tallies[k - 1], run[k - 1 + 1], tallies[k - 1 + 1]);
      var ev :| Enabled(run[k - 1], ev) && run[k] == Apply(hotp, run[k - 1], ev)
                && tallies[k] == Tallied(hotp, run[k - 1], tallies[k - 1], ev);
      EventKeepsInv(hotp, run[k - 1], tallies[k - 1], ev);
    }
  }

  /**
   * However calls are interleaved, no failure is lost: the row counts every rejection since it was last
   * cleared. And the lock binds every call that reads the row after it: a code whose call had seen five or more
   * rejections was checked at least 900 seconds after the last of them. Only calls that read the row before a
   * rejection was counted escape the lock that it sets.
   */
  lemma LockBindsLaterReaders(hotp: Hotp, run: seq<State>, tallies: seq<Tally>, k: nat, j: nat)
    requires IsTalliedRun(hotp, run, tallies) && k < |run| && j < |tallies[k].rejections|
    ensures run[k].user.settings.Some? && run[k].user.settings.value.failed == |tallies[k].rejections|
    ensures var t := tallies[k];
      var r := t.rejections[j].read;
      r.count == t.count && r.seen >= MAX_FAILURES ==>
        r.seen <= j && t.rejections[j].at >= t.rejections[r.seen - 1].at + LOCKOUT
  {
    RunInv(hotp, run, tallies, k);
    assert RejectionOk(tallies[k], j);
  }

  // ----- Overlapping calls do escape -----

  lemma RunOn(hotp: Hotp, run: seq<State>, tallies: seq<Tally>, ev: Event)
    requires IsTalliedRun(hotp, run, tallies) && Enabled(run[|run| - 1], ev)
    ensures var s, t := run[|run| - 1], tallies[|run| - 1];
      IsTalliedRun(hotp, run + [Apply(hotp, s, ev)], tallies + [Tallied(hotp, s, t, ev)])
  {
    var s, t := run[|run| - 1], tallies[|run| - 1];
    var more, more' := run + [Apply(hotp, s, ev)], tallies + [Tallied(hotp, s, t, ev)];
    forall k | 0 <= k < |more| - 1 ensures TalliedNext(hotp, more[k], more'[k], more[k + 1], more'[k + 1]) {
      if k < |run| - 1 {
        assert TalliedNext(hotp, run[k], tallies[k], run[k + 1], tallies[k + 1]);
      }
    }
  }

  /** TOTP codes are six digits. */
  ghost predicate SixDigits(hotp: Hotp) {
    forall secret, step :: TotpShaped(hotp(secret, step))
  }

  const NOW := 0
  const SECRET := "s"
  const STEP_ENV := Env(NOW, false)

  lemma ShapedIsTrimmed(code: string)
    requires TotpShaped(code)
    ensures TrimSpace(code) == code
  {
    assert '0' <= code[0] <= '9' && '0' <= code[|code| - 1] <= '9';
    TrimmedStays(code);
  }

  /** The code of the current step, and the step it matches. */
  lemma RightCode(hotp: Hotp) returns (code: string)
    requires SixDigits(hotp)
    ensures code == hotp(SECRET, 0) && MatchingStep(hotp, SECRET, code, NOW).Some?
  {
    code := hotp(SECRET, 0);
    ShapedIsTrimmed(code);
    assert TimeStep(NOW) == 0;
  }

  /** Some six digits are the code of none of the three steps around now. */
  lemma WrongCode(hotp: Hotp) returns (code: string)
    ensures TotpShaped(TrimSpace(code)) && MatchingStep(hotp, SECRET, code, NOW).None?
  {
    var a, b, c := hotp(SECRET, -1), hotp(SECRET, 0), hotp(SECRET, 1);
    code := Unlike(a, b, c);
    ShapedIsTrimmed(code);
    assert TimeStep(NOW) == 0;
  }

  function Digit(d: char): string {
    ['0', '0', '0', '0', '0', d]
  }

  lemma DigitShaped(d: char)
    requires '0' <= d <= '9'
    ensures TotpShaped(Digit(d)) && forall e :: Digit(d) == Digit(e) ==> d == e
  {
    forall e | Digit(d) == Digit(e) ensures d == e {
      assert Digit(d)[5] == d && Digit(e)[5] == e;
    }
  }

  predicate Apart(code: string, a: string, b: string, c: string) {
    code != a && code != b && code != c
  }

  /** A code that differs from three given ones. */
  lemma Unlike(a: string, b: string, c: string) returns (code: string)
    ensures TotpShaped(code) && Apart(code, a, b, c)
  {
    DigitShaped('0');
    DigitShaped('1');
    DigitShaped('2');
    DigitShaped('3');
    code := if Apart(Digit('0'), a, b, c) then Digit('0')
      else if Apart(Digit('1'), a, b, c) then Digit('1')
      else if Apart(Digit('2'), a, b, c) then Digit('2')
      else Digit('3');
  }

  /** The user that has just confirmed an enrolment. */
  function Enrolled(step: int): UserMfa {
    UserMfa(Some(Settings(SECRET, Some(NOW), step, 0, None, NOW)), map[])
  }

  /** The state so far: the user is enrolled and unlocked, nothing was rejected in the current count. */
  ghost predicate Ready(s: State, t: Tally, step: int) {
    s.user == Enrolled(step) && s.now == NOW && t.rejections == []
  }

  lemma EnrollSteps(hotp: Hotp, s: State, t: Tally)
    requires s.user == UserMfa(None, map[]) && s.now == NOW && t.rejections == []
    requires 0 in s.calls && s.calls[0] == Call(BeginTotpEnrollment(SECRET), EnrollSave)
    ensures Enabled(s, Step(0, STEP_ENV))
    ensures var s' := Apply(hotp, s, Step(0, STEP_ENV));
      && s'.user == UserMfa(Some(Settings(SECRET, None, 0, 0, None, NOW)), map[]) && s'.now == NOW
      && s'.calls.Keys == s.calls.Keys && AfterStep(hotp, s, t, 0, STEP_ENV).rejections == []
  {
  }

  lemma ConfirmReads(hotp: Hotp, s: State, t: Tally, code: string)
    requires s.user == UserMfa(Some(Settings(SECRET, None, 0, 0, None, NOW)), map[]) && s.now == NOW
    requires 1 in s.calls && s.calls[1] == Call(ConfirmTotpEnrollment(code, []), ConfirmRead) && t.rejections == []
    requires MatchingStep(hotp, SECRET, code, NOW).Some?
    ensures Enabled(s, Step(1, STEP_ENV))
    ensures var s' := Apply(hotp, s, Step(1, STEP_ENV));
      && s'.user == s.user && s'.now == NOW && s'.calls.Keys == s.calls.Keys
      && s'.calls[1] == Call(ConfirmTotpEnrollment(code, []),
                             ConfirmStore(MatchingStep(hotp, SECRET, code, NOW).value, NOW))
      && AfterStep(hotp, s, t, 1, STEP_ENV).rejections == []
  {
  }

  lemma ConfirmStores(hotp: Hotp, s: State, t: Tally, code: string, step: int)
    requires s.user == UserMfa(Some(Settings(SECRET, None, 0, 0, None, NOW)), map[]) && s.now == NOW
    requires 1 in s.calls && s.calls[1] == Call(ConfirmTotpEnrollment(code, []), ConfirmStore(step, NOW))
    ensures Enabled(s, Step(1, STEP_ENV))
    ensures var s' := Apply(hotp, s, Step(1, STEP_ENV));
      Ready(s', AfterStep(hotp, s, t, 1, STEP_ENV), step) && s'.calls.Keys == s.calls.Keys
  {
    assert Unused([]) == map[];
  }

  /** A user enrols, from an empty table. */
  lemma EnrollRuns(hotp: Hotp) returns (run: seq<State>, tallies: seq<Tally>, step: int)
    requires SixDigits(hotp)
    ensures IsTalliedRun(hotp, run, tallies)
    ensures var s := run[|run| - 1]; Ready(s, tallies[|run| - 1], step) && s.calls.Keys == {0, 1}
  {
    var code := RightCode(hotp);
    var begin, confirm := Begin(0, BeginTotpEnrollment(SECRET)), Begin(1, ConfirmTotpEnrollment(code, []));
    var s0 := State(UserMfa(None, map[]), map[], NOW, History([], [], 0, map[]));
    var t0 := Tally(0, [], map[]);
    run, tallies := [s0], [t0];
    RunOn(hotp, run, tallies, begin);
    var s1 := Apply(hotp, s0, begin);
    run, tallies := run + [s1], tallies + [t0];
    EnrollSteps(hotp, s1, t0);
    RunOn(hotp, run, tallies, Step(0, STEP_ENV));
    var s2, t2 := Apply(hotp, s1, Step(0, STEP_ENV)), AfterStep(hotp, s1, t0, 0, STEP_ENV);
    run, tallies := run + [s2], tallies + [t2];
    RunOn(hotp, run, tallies, confirm);
    var s3 := Apply(hotp, s2, confirm);
    run, tallies := run + [s3], tallies + [t2];
    ConfirmReads(hotp, s3, t2, code);
    RunOn(hotp, run, tallies, Step(1, STEP_ENV));
    var s4, t4 := Apply(hotp, s3, Step(1, STEP_ENV)), AfterStep(hotp, s3, t2, 1, STEP_ENV);
    run, tallies := run + [s4], tallies + [t4];
    step := MatchingStep(hotp, SECRET, code, NOW).value;
    ConfirmStores(hotp, s4, t4, code, step);
    RunOn(hotp, run, tallies, Step(1, STEP_ENV));
    run := run + [Apply(hotp, s4, Step(1, STEP_ENV))];
    tallies := tallies + [AfterStep(hotp, s4, t4, 1, STEP_ENV)];
  }

  /** Calls 2 to n + 1 wait to read the row. */
  ghost predicate Waiting(s: State, wrong: string, lo: nat, n: nat) {
    forall j :: lo <= j < n + 2 ==> j in s.calls && s.calls[j] == Call(Verify(wrong), VerifyRead)
  }

  ghost predicate NoneFrom(s: State, n: nat) {
    forall j :: j in s.calls ==> j < n
  }

  /** Calls 2 to n + 1 were checked, at one instant, and wait to be counted. */
  ghost predicate Checked(s: State, t: Tally, wrong: string, lo: nat, n: nat) {
    forall j :: lo <= j < n + 2 ==>
      j in s.calls && j in t.views && s.calls[j].req == Verify(wrong) && s.calls[j].pc.VerifyFail?
      && s.calls[j].pc.at == NOW
  }

  lemma ReadStep(hotp: Hotp, s: State, t: Tally, j: CallId, wrong: string, step: int)
    requires Ready(s, t, step) && j in s.calls && s.calls[j] == Call(Verify(wrong), VerifyRead)
    requires TotpShaped(TrimSpace(wrong)) && MatchingStep(hotp, SECRET, wrong, NOW).None?
    ensures Enabled(s, Step(j, STEP_ENV))
    ensures var s' := Apply(hotp, s, Step(j, STEP_ENV));
      && s'.user == s.user && s'.now == s.now
      && s'.calls == s.calls[j := Call(Verify(wrong), VerifyFail(0, NOW))]
    ensures AfterStep(hotp, s, t, j, STEP_ENV) == t.(views := t.views[j := Read(t.count, 0)])
  {
  }

  lemma FailStep(hotp: Hotp, s: State, t: Tally, j: CallId)
    requires s.user.settings.Some? && s.now == NOW && j in s.calls && j in t.views
    requires s.calls[j].pc.VerifyFail? && s.calls[j].pc.at == NOW && WellFormed(s.calls[j])
    ensures Enabled(s, Step(j, STEP_ENV))
    ensures var s' := Apply(hotp, s, Step(j, STEP_ENV));
      && s'.user.settings.Some? && s'.now == NOW && s'.calls.Keys == s.calls.Keys
      && (forall k :: k in s.calls && k != j ==> s'.calls[k] == s.calls[k])
    ensures AfterStep(hotp, s, t, j, STEP_ENV) == t.(rejections := t.rejections + [Rejection(NOW, t.views[j])])
  {
  }

  /** n calls begin. */
  lemma BeginAll(hotp: Hotp, before: seq<State>, tallies: seq<Tally>, wrong: string, step: int, n: nat)
    returns (run: seq<State>, more: seq<Tally>)
    requires IsTalliedRun(hotp, before, tallies) && before[|before| - 1].calls.Keys == {0, 1}
    requires Ready(before[|before| - 1], tallies[|before| - 1], step)
    ensures IsTalliedRun(hotp, run, more) && Ready(run[|run| - 1], more[|run| - 1], step)
    ensures Waiting(run[|run| - 1], wrong, 2, n)
  {
    run, more := before, tallies;
    var i := 0;
    while i < n
      invariant i <= n && IsTalliedRun(hotp, run, more) && Ready(run[|run| - 1], more[|run| - 1], step)
      invariant Waiting(run[|run| - 1], wrong, 2, i)
      invariant NoneFrom(run[|run| - 1], i + 2)
    {
      var ev := Begin(i + 2, Verify(wrong));
      RunOn(hotp, run, more, ev);
      run, more := run + [Apply(hotp, run[|run| - 1], ev)], more + [more[|run| - 1]];
      i := i + 1;
    }
  }

  /** They all read the row. */
  lemma ReadAll(hotp: Hotp, before: seq<State>, tallies: seq<Tally>, wrong: string, step: int, n: nat)
    returns (run: seq<State>, more: seq<Tally>)
    requires IsTalliedRun(hotp, before, tallies) && Ready(before[|before| - 1], tallies[|before| - 1], step)
    requires Waiting(before[|before| - 1], wrong, 2, n)
    requires TotpShaped(TrimSpace(wrong)) && MatchingStep(hotp, SECRET, wrong, NOW).None?
    ensures IsTalliedRun(hotp, run, more) && Ready(run[|run| - 1], more[|run| - 1], step)
    ensures Checked(run[|run| - 1], more[|run| - 1], wrong, 2, n)
  {
    run, more := before, tallies;
    var i := 0;
    while i < n
      invariant i <= n && IsTalliedRun(hotp, run, more) && Ready(run[|run| - 1], more[|run| - 1], step)
      invariant Waiting(run[|run| - 1], wrong, i + 2, n)
      invariant Checked(run[|run| - 1], more[|run| - 1], wrong, 2, i)
    {
      var s, t := run[|run| - 1], more[|run| - 1];
      ReadStep(hotp, s, t, i + 2, wrong, step);
      RunOn(hotp, run, more, Step(i + 2, STEP_ENV));
      run := run + [Apply(hotp, s, Step(i + 2, STEP_ENV))];
      more := more + [AfterStep(hotp, s, t, i + 2, STEP_ENV)];
      i := i + 1;
    }
  }

  /** They all are counted. */
  lemma FailAll(hotp: Hotp, before: seq<State>, tallies: seq<Tally>, wrong: string, n: nat)
    returns (run: seq<State>, more: seq<Tally>)
    requires IsTalliedRun(hotp, before, tallies) && tallies[|before| - 1].rejections == []
    requires before[|before| - 1].user.settings.Some? && before[|before| - 1].now == NOW
    requires Checked(before[|before| - 1], tallies[|before| - 1], wrong, 2, n)
    ensures IsTalliedRun(hotp, run, more)
    ensures |more[|run| - 1].rejections| == n && forall r :: r in more[|run| - 1].rejections ==> r.at == NOW
  {
    run, more := before, tallies;
    var i := 0;
    while i < n
      invariant i <= n && IsTalliedRun(hotp, run, more)
      invariant run[|run| - 1].user.settings.Some? && run[|run| - 1].now == NOW
      invariant Checked(run[|run| - 1], more[|run| - 1], wrong, i + 2, n)
      invariant |more[|run| - 1].rejections| == i && forall r :: r in more[|run| - 1].rejections ==> r.at == NOW
    {
      var s, t := run[|run| - 1], more[|run| - 1];
      FailStep(hotp, s, t, i + 2);
      RunOn(hotp, run, more, Step(i + 2, STEP_ENV));
      run := run + [Apply(hotp, s, Step(i + 2, STEP_ENV))];
      more := more + [AfterStep(hotp, s, t, i + 2, STEP_ENV)];
      i := i + 1;
    }
  }

  /**
   * Overlapping calls do escape: for every n there is a run from an empty table in which n wrong codes are
   * checked and rejected at one instant, with no code accepted in between. So no bound on the number of codes
   * checked in a time holds for calls that overlap.
   */
  lemma OverlappingCallsEscape(hotp: Hotp, n: nat) returns (run: seq<State>, tallies: seq<Tally>)
    requires SixDigits(hotp)
    ensures IsTalliedRun(hotp, run, tallies)
    ensures var r := tallies[|run| - 1].rejections;
      |r| == n && forall i, j :: 0 <= i < j < n ==> r[i].at == r[j].at
  {
    var wrong := WrongCode(hotp);
    var step: int;
    run, tallies, step := EnrollRuns(hotp);
    run, tallies := BeginAll(hotp, run, tallies, wrong, step, n);
    run, tallies := ReadAll(hotp, run, tallies, wrong, step, n);
    run, tallies := FailAll(hotp, run, tallies, wrong, n);
  }
}
