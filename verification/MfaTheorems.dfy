/** What holds in every state of every run of MfaMachine. */
module MfaTheorems {
  import opened Common
  import opened Totp
  import opened MfaTables
  import opened MfaCalls
  import opened MfaMachine

  /** Within one enrolment the steps of the accepted codes strictly increase (section 5.2 of RFC 6238), and each
      was within one step of the time it was checked at. */
  lemma AcceptedStepsRise(hotp: Hotp, run: seq<State>, k: nat, n: nat, i: nat, j: nat)
    requires IsRun(hotp, run) && k < |run|
    requires n < |run[k].past.enrolments| && i < j < |run[k].past.enrolments[n]|
    ensures var uses := run[k].past.enrolments[n];
      uses[i].step < uses[j].step && Near(uses[i].step, uses[i].at) && Near(uses[j].step, uses[j].at)
  {
    RunInv(hotp, run, k);
    assert Rising(run[k].past.enrolments[n]);
  }

  /** Every call that was told its TOTP code is accepted accounts for one of them. */
  lemma AcceptancesAreRecorded(hotp: Hotp, run: seq<State>, k: nat, i: CallId)
    requires IsRun(hotp, run) && k < |run| && i in run[k].calls && run[k].calls[i].pc == Done(AcceptedTotp)
    ensures UsedBy(run[k].past, i)
  {
    RunInv(hotp, run, k);
    assert CallOk(run[k].past, i, run[k].calls[i]);
  }

  /** The accepted steps whose codes were checked while the current step was in a..b. */
  function StepsWithin(uses: seq<Use>, a: int, b: int): seq<int> {
    if uses == [] then []
    else
      var n := |uses| - 1;
      StepsWithin(uses[..n], a, b) + (if a <= TimeStep(uses[n].at) <= b then [uses[n].step] else [])
  }

  lemma {:induction false} StepsWithinRise(uses: seq<Use>, a: int, b: int)
    requires Rising(uses)
    ensures Increasing(StepsWithin(uses, a, b)) && Within(StepsWithin(uses, a, b), a - SKEW, b + SKEW)
    ensures uses != [] ==> forall x :: x in StepsWithin(uses, a, b) ==> x <= uses[|uses| - 1].step
  {
    if uses != [] {
      var n := |uses| - 1;
      assert Rising(uses[..n]);
      StepsWithinRise(uses[..n], a, b);
      var init := StepsWithin(uses[..n], a, b);
      if n > 0 {
        assert uses[..n][n - 1] == uses[n - 1];
      }
      assert forall i :: 0 <= i < |init| ==> init[i] in init;
    }
  }

  /** While the current step is in a..b, at most b - a + 3 codes of one enrolment are accepted. */
  lemma AcceptanceBound(hotp: Hotp, run: seq<State>, k: nat, n: nat, a: int, b: int)
    requires IsRun(hotp, run) && k < |run| && n < |run[k].past.enrolments| && a <= b
    ensures |StepsWithin(run[k].past.enrolments[n], a, b)| <= b - a + 3
  {
    RunInv(hotp, run, k);
    var uses := run[k].past.enrolments[n];
    assert Rising(uses);
    StepsWithinRise(uses, a, b);
    IncreasingFitsRange(StepsWithin(uses, a, b), a - SKEW, b + SKEW);
  }

  ghost function UnusedCodes(u: UserMfa): set<Hash> {
    set h | h in u.codes && !u.codes[h]
  }

  lemma {:induction false} DistinctCount(hs: seq<Hash>, s: set<Hash>)
    requires Distinct(hs) && forall h :: h in hs <==> h in s
    ensures |hs| == |s|
  {
    if hs == [] {
      assert s == {};
    } else {
      var n := |hs| - 1;
      assert hs == hs[..n] + [hs[n]];
      DistinctCount(hs[..n], s - {hs[n]});
    }
  }

  /** No recovery code is accepted twice, and none is lost: the unused ones and the accepted ones since the
      last issue are as many as were issued. */
  lemma RecoveryCodesAreConserved(hotp: Hotp, run: seq<State>, k: nat)
    requires IsRun(hotp, run) && k < |run|
    ensures Distinct(run[k].past.spent)
    ensures |UnusedCodes(run[k].user)| + |run[k].past.spent| == run[k].past.issued
  {
    RunInv(hotp, run, k);
    var u := run[k].user;
    var used := set h | h in u.codes && u.codes[h];
    DistinctCount(run[k].past.spent, used);
    assert u.codes.Keys == used + UnusedCodes(u) && used !! UnusedCodes(u);
  }
}
