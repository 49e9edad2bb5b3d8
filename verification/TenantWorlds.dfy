/**
 * Every call of a run of TenantResolver's steps is a run of its method Resolve, in the world that consists of the
 * other events of the run. So what TenantResolver proves of all runs holds of the method.
 */
module TenantWorlds {
  import opened Common
  import opened TenantResolver

  /** From s to s' the call takes its k-th step, with what the world gives it there. */
  ghost predicate TakesStep(ttl: int, s: State, s': State, i: CallId, w: World, k: nat) {
    && Enabled(s, Step(i, w.env(k))) && s' == Apply(ttl, s, Step(i, w.env(k)))
    && forall x, y :: w.others(k, x, y) == (s.entries, s.tenants)
  }

  /** From state m to state u of the run the world gives the call, from its k-th step on, what the run gives it. */
  ghost predicate Follows(ttl: int, run: seq<State>, m: nat, u: nat, i: CallId, w: World, k: nat)
    decreases u - m
  {
    && m <= u < |run| && i in run[m].calls
    && (m == u || (
      && i in run[m + 1].calls
      && if run[m + 1].calls[i] == run[m].calls[i] then Follows(ttl, run, m + 1, u, i, w, k)
         else TakesStep(ttl, run[m], run[m + 1], i, w, k) && Follows(ttl, run, m + 1, u, i, w, k + 1)))
  }

  lemma StepInWorld(ttl: int, s: State, s': State, i: CallId, w: World, k: nat, x: Entries, y: Tenants)
    requires TakesStep(ttl, s, s', i, w, k)
    ensures i in s'.calls
    ensures Run(ttl, x, y, s.calls[i], w, k) == Run(ttl, s'.entries, s'.tenants, s'.calls[i], w, k + 1)
    ensures s'.calls[i].pc.Done? ==>
      Run(ttl, x, y, s.calls[i], w, k) == (s'.entries, s'.calls[i].pc)
  {
    RunStep(ttl, x, y, s.calls[i], w, k);
    StepsTerminate(ttl, s.entries, s.tenants, s.calls[i], w.env(k));
  }

  /** The method in that world ends as the call does, whatever the cache and the tenants were before. */
  lemma {:induction false} FollowedRun(ttl: int, run: seq<State>, m: nat, u: nat, i: CallId,
                                       w: World, k: nat, x: Entries, y: Tenants)
    requires m < u && Follows(ttl, run, m, u, i, w, k)
    requires i in run[u].calls && i in run[u - 1].calls && run[u].calls[i].pc.Done? && !run[u - 1].calls[i].pc.Done?
    ensures Run(ttl, x, y, run[m].calls[i], w, k) == (run[u].entries, run[u].calls[i].pc)
    decreases u - m
  {
    if run[m + 1].calls[i] == run[m].calls[i] {
      FollowedRun(ttl, run, m + 1, u, i, w, k, x, y);
    } else {
      StepInWorld(ttl, run[m], run[m + 1], i, w, k, x, y);
      if m + 1 < u {
        FollowedRun(ttl, run, m + 1, u, i, w, k + 1, run[m + 1].entries, run[m + 1].tenants);
      }
    }
  }

  /** The world that at the k-th step gives e and the cache and tenants of s, and afterwards is as w. */
  ghost function Prefixed(w: World, k: nat, e: Env, s: State): World {
    World((j: nat) => if j == k then e else w.env(j),
          (j: nat, x: Entries, y: Tenants) => if j == k then (s.entries, s.tenants) else w.others(j, x, y))
  }

  ghost predicate SameAt(v: World, w: World, j: nat) {
    v.env(j) == w.env(j) && forall x, y :: v.others(j, x, y) == w.others(j, x, y)
  }

  /** Only what the world gives from the k-th step on matters. */
  lemma {:induction false} PrefixFollows(ttl: int, run: seq<State>, m: nat, u: nat, i: CallId,
                                         v: World, w: World, k: nat)
    requires Follows(ttl, run, m, u, i, w, k)
    requires forall j: nat :: j >= k ==> SameAt(v, w, j)
    ensures Follows(ttl, run, m, u, i, v, k)
    decreases u - m
  {
    if m < u {
      if run[m + 1].calls[i] == run[m].calls[i] {
        PrefixFollows(ttl, run, m + 1, u, i, v, w, k);
      } else {
        assert SameAt(v, w, k);
        PrefixFollows(ttl, run, m + 1, u, i, v, w, k + 1);
      }
    }
  }

  lemma PrefixIsTheStep(ttl: int, s: State, s': State, i: CallId, rest: World, k: nat, e: Env)
    requires Enabled(s, Step(i, e)) && s' == Apply(ttl, s, Step(i, e))
    ensures TakesStep(ttl, s, s', i, Prefixed(rest, k, e, s), k)
    ensures forall j: nat :: j > k ==> SameAt(Prefixed(rest, k, e, s), rest, j)
  {
  }

  lemma FollowsFromStep(ttl: int, run: seq<State>, m: nat, u: nat, i: CallId, rest: World, k: nat, e: Env)
    requires m < u && Follows(ttl, run, m + 1, u, i, rest, k + 1)
    requires i in run[m].calls && run[m + 1].calls[i] != run[m].calls[i]
    requires Enabled(run[m], Step(i, e)) && run[m + 1] == Apply(ttl, run[m], Step(i, e))
    ensures Follows(ttl, run, m, u, i, Prefixed(rest, k, e, run[m]), k)
  {
    PrefixIsTheStep(ttl, run[m], run[m + 1], i, rest, k, e);
    PrefixFollows(ttl, run, m + 1, u, i, Prefixed(rest, k, e, run[m]), rest, k + 1);
  }

  /** What leads on from a state is a step of the call, which changes it, or leaves the call as it is. */
  lemma OwnStepOrNot(ttl: int, s: State, s': State, i: CallId) returns (e: Env)
    requires Next(ttl, s, s') && i in s.calls
    ensures i in s'.calls
    ensures s'.calls[i] != s.calls[i] ==> Enabled(s, Step(i, e)) && s' == Apply(ttl, s, Step(i, e))
  {
    var ev :| Enabled(s, ev) && s' == Apply(ttl, s, ev);
    if ev.Step? && ev.id == i {
      e := ev.e;
      StepsTerminate(ttl, s.entries, s.tenants, s.calls[i], e);
    } else {
      e := *;
    }
  }

  /** The world that consists of the other events of the run. */
  lemma {:induction false} WorldOf(ttl: int, run: seq<State>, m: nat, u: nat, i: CallId, k: nat)
    returns (w: World)
    requires IsRun(ttl, run) && m <= u < |run| && i in run[m].calls
    ensures Follows(ttl, run, m, u, i, w, k)
    decreases u - m
  {
    var e: Env := *;
    w := World((j: nat) => e, (j: nat, x: Entries, y: Tenants) => (x, y));
    if m < u {
      assert StepAt(ttl, run, m);
      e := OwnStepOrNot(ttl, run[m], run[m + 1], i);
      if run[m + 1].calls[i] == run[m].calls[i] {
        w := WorldOf(ttl, run, m + 1, u, i, k);
      } else {
        var rest := WorldOf(ttl, run, m + 1, u, i, k + 1);
        w := Prefixed(rest, k, e, run[m]);
        FollowsFromStep(ttl, run, m, u, i, rest, k, e);
      }
    }
  }

  lemma {:induction false} CallStays(ttl: int, run: seq<State>, m: nat, n: nat, i: CallId)
    requires IsRun(ttl, run) && m <= n < |run| && i in run[m].calls
    ensures i in run[n].calls && (run[m].calls[i].pc.Done? ==> run[n].calls[i] == run[m].calls[i])
  {
    if m < n {
      CallStays(ttl, run, m, n - 1, i);
      assert StepAt(ttl, run, n - 1);
    }
  }

  /** The state in which a call that is done in state n was done first. */
  lemma {:induction false} FirstDone(ttl: int, run: seq<State>, m: nat, n: nat, i: CallId) returns (u: nat)
    requires IsRun(ttl, run) && m <= n < |run| && i in run[m].calls && i in run[n].calls
    requires !run[m].calls[i].pc.Done? && run[n].calls[i].pc.Done?
    ensures m < u <= n && i in run[u].calls && run[u].calls[i] == run[n].calls[i]
    ensures i in run[u - 1].calls && !run[u - 1].calls[i].pc.Done?
    decreases n - m
  {
    CallStays(ttl, run, m, m + 1, i);
    if run[m + 1].calls[i].pc.Done? {
      CallStays(ttl, run, m + 1, n, i);
      u := m + 1;
    } else {
      u := FirstDone(ttl, run, m + 1, n, i);
    }
  }

  /** A call that begins in state m of a run and is done in state n ran as Resolve does. */
  lemma MachineCallsAreMethodRuns(ttl: int, run: seq<State>, m: nat, n: nat, i: CallId, domain: string)
    returns (u: nat, w: World)
    requires IsRun(ttl, run) && m <= n < |run| && i in run[m].calls && i in run[n].calls
    requires run[m].calls[i] == Call(domain, Reading) && run[n].calls[i].pc.Done?
    ensures m < u <= n && Follows(ttl, run, m, u, i, w, 0)
    ensures forall x, y :: Run(ttl, x, y, Call(domain, Reading), w, 0) == (run[u].entries, run[n].calls[i].pc)
  {
    u := FirstDone(ttl, run, m, n, i);
    w := WorldOf(ttl, run, m, u, i, 0);
    forall x, y ensures Run(ttl, x, y, run[m].calls[i], w, 0) == (run[u].entries, run[n].calls[i].pc) {
      FollowedRun(ttl, run, m, u, i, w, 0, x, y);
    }
  }
}
