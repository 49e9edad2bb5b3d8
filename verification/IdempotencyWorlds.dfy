/**
 * Every request of a run of IdempotencyMachine that is answered is a run of the middleware's method, in the
 * world that consists of the other events of the run. So what IdempotencyTheorems proves of all runs holds of
 * the methods of IdempotencyService.
 */
module IdempotencyWorlds {
  import opened Common
  import opened IdempotencyTable
  import opened IdempotencyMachine
  import opened IdempotencyRuns

  /** From s to s' the call takes its k-th step, with what the world gives it there. */
  ghost predicate TakesStep(s: State, s': State, i: Id, w: World, k: nat) {
    && Enabled(s, Step(i, w.env(k))) && s' == Apply(s, Step(i, w.env(k)))
    && forall before :: w.others(k, before) == s.rows
  }

  /** From state m to state u of the run the world gives the call, from its k-th step on, what the run gives it. */
  ghost predicate Follows(run: seq<State>, m: nat, u: nat, i: Id, w: World, k: nat)
    decreases u - m
  {
    && m <= u < |run| && i in run[m].calls
    && (m == u || (
      && i in run[m + 1].calls
      && if run[m + 1].calls[i] == run[m].calls[i] then Follows(run, m + 1, u, i, w, k)
         else TakesStep(run[m], run[m + 1], i, w, k) && Follows(run, m + 1, u, i, w, k + 1)))
  }

  lemma StepInWorld(s: State, s': State, i: Id, w: World, k: nat, before: Table)
    requires TakesStep(s, s', i, w, k) && WellFormed(s.calls[i])
    ensures i in s'.calls && WellFormed(s'.calls[i])
    ensures Run(before, i, s.calls[i], w, k) == Run(s'.rows, i, s'.calls[i], w, k + 1)
    ensures Ended(s'.calls[i].pc) ==>
      Run(before, i, s.calls[i], w, k) == (s'.rows, s'.calls[i].pc)
  {
    RunStep(before, i, s.calls[i], w, k);
    StepsTerminate(s.rows, i, s.calls[i], w.env(k));
  }

  /** The method in that world ends as the call does, whatever the table was before. */
  lemma {:induction false} FollowedRun(run: seq<State>, m: nat, u: nat, i: Id,
                                       w: World, k: nat, before: Table)
    requires m < u && Follows(run, m, u, i, w, k) && WellFormed(run[m].calls[i])
    requires i in run[u].calls && i in run[u - 1].calls && Ended(run[u].calls[i].pc) && !Ended(run[u - 1].calls[i].pc)
    ensures Run(before, i, run[m].calls[i], w, k) == (run[u].rows, run[u].calls[i].pc)
    decreases u - m
  {
    if run[m + 1].calls[i] == run[m].calls[i] {
      FollowedRun(run, m + 1, u, i, w, k, before);
    } else {
      StepInWorld(run[m], run[m + 1], i, w, k, before);
      if m + 1 < u {
        FollowedRun(run, m + 1, u, i, w, k + 1, run[m + 1].rows);
      }
    }
  }

  /** The world that at the k-th step gives e and the table of s, and afterwards is as w. */
  ghost function Prefixed(w: World, k: nat, e: Env, s: State): World {
    World((j: nat) => if j == k then e else w.env(j),
          (j: nat, before: Table) => if j == k then s.rows else w.others(j, before))
  }

  ghost predicate SameAt(v: World, w: World, j: nat) {
    v.env(j) == w.env(j) && forall before :: v.others(j, before) == w.others(j, before)
  }

  /** Only what the world gives from the k-th step on matters. */
  lemma {:induction false} PrefixFollows(run: seq<State>, m: nat, u: nat, i: Id,
                                         v: World, w: World, k: nat)
    requires Follows(run, m, u, i, w, k)
    requires forall j: nat :: j >= k ==> SameAt(v, w, j)
    ensures Follows(run, m, u, i, v, k)
    decreases u - m
  {
    if m < u {
      if run[m + 1].calls[i] == run[m].calls[i] {
        PrefixFollows(run, m + 1, u, i, v, w, k);
      } else {
        assert SameAt(v, w, k);
        PrefixFollows(run, m + 1, u, i, v, w, k + 1);
      }
    }
  }

  lemma PrefixIsTheStep(s: State, s': State, i: Id, rest: World, k: nat, e: Env)
    requires Enabled(s, Step(i, e)) && s' == Apply(s, Step(i, e))
    ensures TakesStep(s, s', i, Prefixed(rest, k, e, s), k)
    ensures forall j: nat :: j > k ==> SameAt(Prefixed(rest, k, e, s), rest, j)
  {
  }

  lemma FollowsFromStep(run: seq<State>, m: nat, u: nat, i: Id, rest: World, k: nat, e: Env)
    requires m < u && Follows(run, m + 1, u, i, rest, k + 1)
    requires i in run[m].calls && run[m + 1].calls[i] != run[m].calls[i]
    requires Enabled(run[m], Step(i, e)) && run[m + 1] == Apply(run[m], Step(i, e))
    ensures Follows(run, m, u, i, Prefixed(rest, k, e, run[m]), k)
  {
    PrefixIsTheStep(run[m], run[m + 1], i, rest, k, e);
    PrefixFollows(run, m + 1, u, i, Prefixed(rest, k, e, run[m]), rest, k + 1);
  }

  /** What leads on from a state is a step of the call, which changes it, or leaves the call as it is. */
  lemma OwnStepOrNot(s: State, s': State, i: Id) returns (e: Env)
    requires Next(s, s') && i in s.calls && WellFormed(s.calls[i])
    ensures i in s'.calls && WellFormed(s'.calls[i])
    ensures s'.calls[i] != s.calls[i] && !s'.calls[i].pc.Crashed? ==>
      Enabled(s, Step(i, e)) && s' == Apply(s, Step(i, e))
  {
    var ev :| Enabled(s, ev) && s' == Apply(s, ev);
    if ev.Step? && ev.id == i {
      e := ev.env;
      StepsTerminate(s.rows, i, s.calls[i], e);
    } else {
      e := *;
    }
  }

  /** The world that consists of the other events of the run, for a request that did not crash. */
  lemma {:induction false} WorldOf(run: seq<State>, m: nat, u: nat, i: Id, k: nat)
    returns (w: World)
    requires IsRun(run) && m <= u < |run| && i in run[m].calls && WellFormed(run[m].calls[i])
    requires i in run[u].calls && run[u].calls[i].pc.Done?
    ensures Follows(run, m, u, i, w, k)
    decreases u - m
  {
    var e: Env := *;
    w := World((j: nat) => e, (j: nat, before: Table) => before);
    if m < u {
      assert StepAt(run, m);
      e := OwnStepOrNot(run[m], run[m + 1], i);
      CallStays(run, m + 1, u, i);
      if run[m + 1].calls[i] == run[m].calls[i] {
        w := WorldOf(run, m + 1, u, i, k);
      } else {
        var rest := WorldOf(run, m + 1, u, i, k + 1);
        w := Prefixed(rest, k, e, run[m]);
        FollowsFromStep(run, m, u, i, rest, k, e);
      }
    }
  }

  lemma {:induction false} CallStays(run: seq<State>, m: nat, n: nat, i: Id)
    requires IsRun(run) && m <= n < |run| && i in run[m].calls
    ensures i in run[n].calls && (Ended(run[m].calls[i].pc) ==> run[n].calls[i] == run[m].calls[i])
  {
    if m < n {
      CallStays(run, m, n - 1, i);
      assert StepAt(run, n - 1);
    }
  }

  /** The state in which a call that is done in state n was done first. */
  lemma {:induction false} FirstDone(run: seq<State>, m: nat, n: nat, i: Id) returns (u: nat)
    requires IsRun(run) && m <= n < |run| && i in run[m].calls && i in run[n].calls
    requires !Ended(run[m].calls[i].pc) && run[n].calls[i].pc.Done?
    ensures m < u <= n && i in run[u].calls && run[u].calls[i] == run[n].calls[i]
    ensures i in run[u - 1].calls && !Ended(run[u - 1].calls[i].pc)
    decreases n - m
  {
    CallStays(run, m, m + 1, i);
    if Ended(run[m + 1].calls[i].pc) {
      CallStays(run, m + 1, n, i);
      u := m + 1;
    } else {
      u := FirstDone(run, m + 1, n, i);
    }
  }

  /** A request that arrives in state m of a run and is answered by state n ran as the middleware does. */
  lemma MachineCallsAreMethodRuns(run: seq<State>, m: nat, n: nat, i: Id, req: Request, at: Time)
    returns (u: nat, w: World)
    requires IsRun(run) && m <= n < |run| && i in run[m].calls && i in run[n].calls
    requires run[m].calls[i] == Call(req, Arrived(at)) && run[n].calls[i].pc.Done?
    ensures m < u <= n && Follows(run, m, u, i, w, 0)
    ensures forall before :: Run(before, i, Call(req, Arrived(at)), w, 0) == (run[u].rows, run[n].calls[i].pc)
  {
    u := FirstDone(run, m, n, i);
    w := WorldOf(run, m, u, i, 0);
    forall before ensures Run(before, i, run[m].calls[i], w, 0) == (run[u].rows, run[n].calls[i].pc) {
      FollowedRun(run, m, u, i, w, 0, before);
    }
  }
}
