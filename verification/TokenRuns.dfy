/** One token call run to its end, statement by statement, while other calls run between its statements. */
module TokenRuns {
  import opened Common
  import opened TokenTables
  import opened TokenCalls

  /** What a call meets on its way: the environment of its k-th statement, and what concurrent calls have
      done to the tables just before that statement. */
  datatype World = World(env: nat -> Env, others: (nat, Db) -> Db)

  /** The final tables and the answer of a call that is at its k-th statement. */
  ghost function Run(db: Db, c: Call, w: World, k: nat): (Db, Outcome)
    requires WellFormed(c)
    decreases Rank(c.pc)
  {
    if c.pc.Done? then (db, c.pc.outcome)
    else
      var now := w.others(k, db);
      var (effect, pc) := Decide(now, c, w.env(k));
      StepStaysWellFormed(now, c, w.env(k));
      StepsTerminate(now, c, w.env(k));
      Run(Perform(now, effect), Call(c.req, pc), w, k + 1)
  }

  lemma RunStep(db: Db, c: Call, w: World, k: nat)
    requires WellFormed(c) && !c.pc.Done?
    ensures var now := w.others(k, db);
      var (effect, pc) := Decide(now, c, w.env(k));
      WellFormed(Call(c.req, pc)) && Run(db, c, w, k) == Run(Perform(now, effect), Call(c.req, pc), w, k + 1)
  {
  }

  /** Nobody touches the tables before the k-th statement, and the statement does not err. */
  ghost predicate Quiet(w: World, k: nat) {
    !w.env(k).fails && forall db :: w.others(k, db) == db
  }

  /** The call runs alone and none of its statements errs. */
  ghost predicate Undisturbed(w: World) {
    forall k: nat :: Quiet(w, k)
  }
}
