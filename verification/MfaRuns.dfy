/** One second-factor call run to its end, statement by statement, while others run between its statements. */
module MfaRuns {
  import opened Common
  import opened Totp
  import opened MfaTables
  import opened MfaCalls

  /** The environment of the call's k-th statement, and what others did to the user's rows before it. */
  datatype World = World(env: nat -> Env, others: (nat, UserMfa) -> UserMfa)

  ghost function Run(hotp: Hotp, u: UserMfa, c: Call, w: World, k: nat): (UserMfa, Outcome)
    requires WellFormed(c)
    decreases Rank(c.pc)
  {
    if c.pc.Done? then (u, c.pc.outcome)
    else
      var now := w.others(k, u);
      var (effect, pc) := Decide(hotp, now, c, w.env(k));
      StepStaysWellFormed(hotp, now, c, w.env(k));
      StepsTerminate(hotp, now, c, w.env(k));
      Run(hotp, Perform(now, effect, w.env(k).now), Call(c.req, pc), w, k + 1)
  }

  lemma RunStep(hotp: Hotp, u: UserMfa, c: Call, w: World, k: nat)
    requires WellFormed(c) && !c.pc.Done?
    ensures var now := w.others(k, u);
      var (effect, pc) := Decide(hotp, now, c, w.env(k));
      WellFormed(Call(c.req, pc)) &&
      Run(hotp, u, c, w, k) == Run(hotp, Perform(now, effect, w.env(k).now), Call(c.req, pc), w, k + 1)
  {
  }

  /** Nobody touches the user's rows before the k-th statement, and the statement does not err. */
  ghost predicate Quiet(w: World, k: nat) {
    !w.env(k).fails && forall u :: w.others(k, u) == u
  }

  /** The call runs alone and none of its statements errs. */
  ghost predicate Undisturbed(w: World) {
    forall k: nat :: Quiet(w, k)
  }
}
