/** One keyed request run to its end, statement by statement, while others run between its statements. */
module IdempotencyRuns {
  import opened Common
  import opened IdempotencyTable
  import opened IdempotencyMachine

  /** The environment of the request's k-th statement, and what others did to the table just before it. */
  datatype World = World(env: nat -> Env, others: (nat, Table) -> Table)

  function Rank(pc: Pc): nat {
    match pc
    case Arrived(_) => 6
    case Ready(_, _, _) => 5
    case Running => 4
    case Storing(_) => 3
    case Releasing(_) => 2
    case Reading => 1
    case _ => 0
  }

  /** Every request runs at most six more steps. */
  lemma StepsTerminate(rows: Table, id: Id, c: Call, e: Env)
    requires WellFormed(c) && !Ended(c.pc)
    ensures WellFormed(Call(c.req, Decide(rows, id, c, e).1))
    ensures Rank(Decide(rows, id, c, e).1) < Rank(c.pc) <= 6
  {
  }

  /** The final table and program counter of a request that is at its k-th statement. */
  ghost function Run(rows: Table, id: Id, c: Call, w: World, k: nat): (Table, Pc)
    requires WellFormed(c)
    decreases Rank(c.pc)
  {
    if Ended(c.pc) then (rows, c.pc)
    else
      var now := w.others(k, rows);
      var (effect, pc) := Decide(now, id, c, w.env(k));
      StepsTerminate(now, id, c, w.env(k));
      Run(Perform(now, id, c.req.scope, effect), id, Call(c.req, pc), w, k + 1)
  }

  lemma RunStep(rows: Table, id: Id, c: Call, w: World, k: nat)
    requires WellFormed(c) && !Ended(c.pc)
    ensures var now := w.others(k, rows);
      var (effect, pc) := Decide(now, id, c, w.env(k));
      WellFormed(Call(c.req, pc)) &&
      Run(rows, id, c, w, k) == Run(Perform(now, id, c.req.scope, effect), id, Call(c.req, pc), w, k + 1)
  {
  }

  /** Nobody touches the table before the k-th statement, and the statement does not err. */
  ghost predicate Quiet(w: World, k: nat) {
    !w.env(k).fails && forall rows :: w.others(k, rows) == rows
  }

  /** The request runs alone and none of its statements errs. */
  ghost predicate Undisturbed(w: World) {
    forall k: nat :: Quiet(w, k)
  }
}
