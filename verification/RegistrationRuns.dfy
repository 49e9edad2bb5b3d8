/** One registration call run to its end, statement by statement, while others run between its statements. */
module RegistrationRuns {
  import opened Common
  import opened ClientMetadata
  import opened RegistrationCalls

  datatype World = World(env: nat -> Env, others: (nat, Db) -> Db)

  ghost function Run(policy: UriPolicy, db: Db, c: Call, w: World, k: nat): (Db, Outcome)
    requires WellFormed(c)
    decreases Rank(c.pc)
  {
    if c.pc.Done? then (db, c.pc.outcome)
    else
      var now := w.others(k, db);
      var (effect, pc) := Decide(policy, now, c, w.env(k));
      StepStaysWellFormed(policy, now, c, w.env(k));
      StepsTerminate(policy, now, c, w.env(k));
      Run(policy, Perform(now, effect), Call(c.req, pc), w, k + 1)
  }

  lemma RunStep(policy: UriPolicy, db: Db, c: Call, w: World, k: nat)
    requires WellFormed(c) && !c.pc.Done?
    ensures var now := w.others(k, db);
      var (effect, pc) := Decide(policy, now, c, w.env(k));
      WellFormed(Call(c.req, pc)) &&
      Run(policy, db, c, w, k) == Run(policy, Perform(now, effect), Call(c.req, pc), w, k + 1)
  {
  }

  /** Nobody touches the tables before the k-th statement, and the statement does not err. */
  ghost predicate Quiet(w: World, k: nat) {
    !w.env(k).fails && forall db :: w.others(k, db) == db
  }

  /** The call runs alone and none of its statements errs. */
  ghost predicate Undisturbed(w: World) {
    forall k: nat :: Quiet(w, k)
  }
}
