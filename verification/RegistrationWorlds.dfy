/**
 * Every call of a run of RegistrationMachine is a run of its method, in the world that consists of the other
 * events of the run. So what RegistrationTheorems proves of all runs holds of the methods of RegistrationService.
 */
module RegistrationWorlds {
  import opened Common
  import opened ClientMetadata
  import opened RegistrationCalls
  import opened RegistrationMachine
  import opened RegistrationRuns

  /** From s to s' the call takes its k-th step, with what the world gives it there. */
  ghost predicate TakesStep(policy: UriPolicy, s: State, s': State, i: CallId, w: World, k: nat) {
    && Enabled(s, Step(i, w.env(k))) && s' == Apply(policy, s, Step(i, w.env(k)))
    && forall before :: w.others(k, before) == s.db
  }

  /** From state m to state u of the run the world gives the call, from its k-th step on, what the run gives it. */
  ghost predicate Follows(policy: UriPolicy, run: seq<State>, m: nat, u: nat, i: CallId, w: World, k: nat)
    decreases u - m
  {
    && m <= u < |run| && i in run[m].calls
    && (m == u || (
      && i in run[m + 1].calls
      && if run[m + 1].calls[i] == run[m].calls[i] then Follows(policy, run, m + 1, u, i, w, k)
         else TakesStep(policy, run[m], run[m + 1], i, w, k) && Follows(policy, run, m + 1, u, i, w, k + 1)))
  }

  lemma StepInWorld(policy: UriPolicy, s: State, s': State, i: CallId, w: World, k: nat, before: Db)
    requires TakesStep(policy, s, s', i, w, k) && WellFormed(s.calls[i])
    ensures i in s'.calls && WellFormed(s'.calls[i])
    ensures Run(policy, before, s.calls[i], w, k) == Run(policy, s'.db, s'.calls[i], w, k + 1)
    ensures s'.calls[i].pc.Done? ==>
      Run(policy, before, s.calls[i], w, k) == (s'.db, s'.calls[i].pc.outcome)
  {
    RunStep(policy, before, s.calls[i], w, k);
    StepStaysWellFormed(policy, s.db, s.calls[i], w.env(k));
  }

  /** The method in that world ends as the call does, whatever the tables were before. */
  lemma {:induction false} FollowedRun(policy: UriPolicy, run: seq<State>, m: nat, u: nat, i: CallId,
                                       w: World, k: nat, before: Db)
    requires m < u && Follows(policy, run, m, u, i, w, k) && WellFormed(run[m].calls[i])
    requires i in run[u].calls && i in run[u - 1].calls && run[u].calls[i].pc.Done? && !run[u - 1].calls[i].pc.Done?
    ensures Run(policy, before, run[m].calls[i], w, k) == (run[u].db, run[u].calls[i].pc.outcome)
    decreases u - m
  {
    if run[m + 1].calls[i] == run[m].calls[i] {
      FollowedRun(policy, run, m + 1, u, i, w, k, before);
    } else {
      StepInWorld(policy, run[m], run[m + 1], i, w, k, before);
      if m + 1 < u {
        FollowedRun(policy, run, m + 1, u, i, w, k + 1, run[m + 1].db);
      }
    }
  }

  /** The world that at the k-th step gives e and the tables of s, and afterwards is as w. */
  ghost function Prefixed(w: World, k: nat, e: Env, s: State): World {
    World((j: nat) => if j == k then e else w.env(j),
          (j: nat, before: Db) => if j == k then s.db else w.others(j, before))
  }

  ghost predicate SameAt(v: World, w: World, j: nat) {
    v.env(j) == w.env(j) && forall before :: v.others(j, before) == w.others(j, before)
  }

  /** Only what the world gives from the k-th step on matters. */
  lemma {:induction false} PrefixFollows(policy: UriPolicy, run: seq<State>, m: nat, u: nat, i: CallId,
                                         v: World, w: World, k: nat)
    requires Follows(policy, run, m, u, i, w, k)
    requires forall j: nat :: j >= k ==> SameAt(v, w, j)
    ensures Follows(policy, run, m, u, i, v, k)
    decreases u - m
  {
    if m < u {
      if run[m + 1].calls[i] == run[m].calls[i] {
        PrefixFollows(policy, run, m + 1, u, i, v, w, k);
      } else {
        assert SameAt(v, w, k);
        PrefixFollows(policy, run, m + 1, u, i, v, w, k + 1);
      }
    }
  }

  lemma PrefixIsTheStep(policy: UriPolicy, s: State, s': State, i: CallId, rest: World, k: nat, e: Env)
    requires Enabled(s, Step(i, e)) && s' == Apply(policy, s, Step(i, e))
    ensures TakesStep(policy, s, s', i, Prefixed(rest, k, e, s), k)
    ensures forall j: nat :: j > k ==> SameAt(Prefixed(rest, k, e, s), rest, j)
  {
  }

  lemma FollowsFromStep(policy: UriPolicy, run: seq<State>, m: nat, u: nat, i: CallId, rest: World, k: nat, e: Env)
    requires m < u && Follows(policy, run, m + 1, u, i, rest, k + 1)
    requires i in run[m].calls && run[m + 1].calls[i] != run[m].calls[i]
    requires Enabled(run[m], Step(i, e)) && run[m + 1] == Apply(policy, run[m], Step(i, e))
    ensures Follows(policy, run, m, u, i, Prefixed(rest, k, e, run[m]), k)
  {
    PrefixIsTheStep(policy, run[m], run[m + 1], i, rest, k, e);
    PrefixFollows(policy, run, m + 1, u, i, Prefixed(rest, k, e, run[m]), rest, k + 1);
  }

  /** What leads on from a state is a step of the call, which changes it, or leaves the call as it is. */
  lemma OwnStepOrNot(policy: UriPolicy, s: State, s': State, i: CallId) returns (e: Env)
    requires Next(policy, s, s') && i in s.calls && WellFormed(s.calls[i])
    ensures i in s'.calls && WellFormed(s'.calls[i])
    ensures s'.calls[i] != s.calls[i] ==> Enabled(s, Step(i, e)) && s' == Apply(policy, s, Step(i, e))
  {
    var ev :| Enabled(s, ev) && s' == Apply(policy, s, ev);
    if ev.Step? && ev.id == i {
      e := ev.env;
      StepStaysWellFormed(policy, s.db, s.calls[i], e);
    } else {
      e := *;
    }
  }

  /** The world that consists of the other events of the run. */
  lemma {:induction false} WorldOf(policy: UriPolicy, run: seq<State>, m: nat, u: nat, i: CallId, k: nat)
    returns (w: World)
    requires IsRun(policy, run) && m <= u < |run| && i in run[m].calls && WellFormed(run[m].calls[i])
    ensures Follows(policy, run, m, u, i, w, k)
    decreases u - m
  {
    var e: Env := *;
    w := World((j: nat) => e, (j: nat, before: Db) => before);
    if m < u {
      assert StepAt(policy, run, m);
      e := OwnStepOrNot(policy, run[m], run[m + 1], i);
      if run[m + 1].calls[i] == run[m].calls[i] {
        w := WorldOf(policy, run, m + 1, u, i, k);
      } else {
        var rest := WorldOf(policy, run, m + 1, u, i, k + 1);
        w := Prefixed(rest, k, e, run[m]);
        FollowsFromStep(policy, run, m, u, i, rest, k, e);
      }
    }
  }

  lemma {:induction false} CallStays(policy: UriPolicy, run: seq<State>, m: nat, n: nat, i: CallId)
    requires IsRun(policy, run) && m <= n < |run| && i in run[m].calls
    ensures i in run[n].calls && (run[m].calls[i].pc.Done? ==> run[n].calls[i] == run[m].calls[i])
  {
    if m < n {
      CallStays(policy, run, m, n - 1, i);
      assert StepAt(policy, run, n - 1);
    }
  }

  /** The state in which a call that is done in state n was done first. */
  lemma {:induction false} FirstDone(policy: UriPolicy, run: seq<State>, m: nat, n: nat, i: CallId) returns (u: nat)
    requires IsRun(policy, run) && m <= n < |run| && i in run[m].calls && i in run[n].calls
    requires !run[m].calls[i].pc.Done? && run[n].calls[i].pc.Done?
    ensures m < u <= n && i in run[u].calls && run[u].calls[i] == run[n].calls[i]
    ensures i in run[u - 1].calls && !run[u - 1].calls[i].pc.Done?
    decreases n - m
  {
    CallStays(policy, run, m, m + 1, i);
    if run[m + 1].calls[i].pc.Done? {
      CallStays(policy, run, m + 1, n, i);
      u := m + 1;
    } else {
      u := FirstDone(policy, run, m + 1, n, i);
    }
  }

  lemma StartIsWellFormed(req: Request)
    ensures WellFormed(Call(req, Start(req)))
  {
  }

  /** A call that begins in state m of a run and is done in state n ran as its method does from the start. */
  lemma MachineCallsAreMethodRuns(policy: UriPolicy, run: seq<State>, m: nat, n: nat, i: CallId, req: Request)
    returns (u: nat, w: World)
    requires IsRun(policy, run) && m <= n < |run| && i in run[m].calls && i in run[n].calls
    requires run[m].calls[i] == Call(req, Start(req)) && !Start(req).Done? && run[n].calls[i].pc.Done?
    ensures m < u <= n && Follows(policy, run, m, u, i, w, 0)
    ensures forall before :: Run(policy, before, Call(req, Start(req)), w, 0) == (run[u].db, run[n].calls[i].pc.outcome)
  {
    StartIsWellFormed(req);
    u := FirstDone(policy, run, m, n, i);
    w := WorldOf(policy, run, m, u, i, 0);
    forall before ensures Run(policy, before, run[m].calls[i], w, 0) == (run[u].db, run[n].calls[i].pc.outcome) {
      FollowedRun(policy, run, m, u, i, w, 0, before);
    }
  }
}
