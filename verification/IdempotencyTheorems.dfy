/** What holds in every state of every run of IdempotencyMachine. */
module IdempotencyTheorems {
  import opened Common
  import opened Redaction
  import opened IdempotencyTable
  import opened IdempotencyMachine

  // ----- Exclusion -----

  /**
   * Of two handler runs under one key, the later began only after the record of the earlier one had been
   * deleted by its own request, had expired, or had gone a minute without an answer. The earlier request
   * no longer holds the key then.
   */
  lemma SecondRunWaits(run: seq<State>, k: nat, i: Id, j: Id)
    requires IsRun(run) && k < |run|
    requires i in run[k].past.starts && j in run[k].past.starts
    requires Before(run[k].past.starts[i], run[k].past.starts[j])
    ensures !Holds(run[k].rows, run[k].past, i)
    ensures Over(run[k].past, i, run[k].past.starts[j].at, run[k].past.starts[j].no)
  {
    RunInv(run, k);
    assert InOrder(run[k].rows, run[k].past, i, j);
  }

  /** Any two handler runs under one key are ordered, so SecondRunWaits applies to one of them. */
  lemma RunsAreOrdered(run: seq<State>, k: nat, i: Id, j: Id)
    requires IsRun(run) && k < |run|
    requires i in run[k].past.starts && j in run[k].past.starts && i != j
    requires run[k].past.starts[i].req.scope == run[k].past.starts[j].req.scope
    ensures Before(run[k].past.starts[i], run[k].past.starts[j]) || Before(run[k].past.starts[j], run[k].past.starts[i])
  {
    RunInv(run, k);
    assert InOrder(run[k].rows, run[k].past, i, j);
  }

  /** Once a response is stored the handler does not run again under its key for the lifetime that the request
      asked for, counted from its arrival. */
  lemma AnsweredKeyStaysAnswered(run: seq<State>, k: nat, i: Id, j: Id)
    requires IsRun(run) && k < |run|
    requires i in run[k].past.stored && i in run[k].past.starts && j in run[k].past.starts
    requires Before(run[k].past.starts[i], run[k].past.starts[j])
    ensures i in run[k].past.arrivals
    ensures run[k].past.arrivals[i] + run[k].past.starts[i].req.ttl <= run[k].past.starts[i].expires
    ensures run[k].past.starts[i].expires < run[k].past.starts[j].at
  {
    RunInv(run, k);
    SecondRunWaits(run, k, i, j);
    assert CallOk(run[k], i, run[k].calls[i]);
  }

  // ----- Fencing -----

  lemma SupersededStepStays(s: State, ev: Event, i: Id)
    requires CallsOk(s) && Enabled(s, ev) && i in s.past.starts && !HasRow(s.rows, i)
    ensures i in Apply(s, ev).past.starts && !HasRow(Apply(s, ev).rows, i)
  {
  }

  /** A request that lost its record never gets it back. */
  lemma {:induction false} SupersededForever(run: seq<State>, k: nat, n: nat, i: Id)
    requires IsRun(run) && k <= n < |run| && i in run[k].past.starts && !HasRow(run[k].rows, i)
    ensures i in run[n].past.starts && !HasRow(run[n].rows, i)
  {
    if k < n {
      SupersededForever(run, k, n - 1, i);
      RunInv(run, n - 1);
      assert StepAt(run, n - 1);
      var ev :| Enabled(run[n - 1], ev) && run[n] == Apply(run[n - 1], ev);
      SupersededStepStays(run[n - 1], ev, i);
    }
  }

  /** Whatever a superseded request still does, however late, leaves every record as it is. */
  lemma LateStepsChangeNothing(run: seq<State>, k: nat, n: nat, i: Id, e: Env)
    requires IsRun(run) && k <= n < |run| && i in run[k].past.starts && !HasRow(run[k].rows, i)
    requires Enabled(run[n], Step(i, e))
    ensures Apply(run[n], Step(i, e)).rows == run[n].rows
    ensures Apply(run[n], Step(i, e)).past.stored == run[n].past.stored
  {
    SupersededForever(run, k, n, i);
    RunInv(run, n);
    assert CallOk(run[n], i, run[n].calls[i]);
  }

  // ----- Replay fidelity -----

  /** What a fingerprint covers of a request. */
  datatype Fingerprinted = Fingerprinted(httpMethod: string, uri: string, body: string)

  /** The request has this method, URI and body, the first two of which are NUL-free. */
  predicate Of(req: Request, a: Fingerprinted) {
    NUL !in a.httpMethod && NUL !in a.uri && req.fingerprint == Fingerprint(a.httpMethod, a.uri, a.body)
  }

  ghost predicate WasReplayed(s: State, j: Id) {
    j in s.calls && s.calls[j].pc.Done? && s.calls[j].pc.answer.Replayed?
  }

  /**
   * Every replayed response is the redacted response of a request with the same tenant, principal, key and
   * fingerprint, which was itself answered with it by its handler; no server error is ever replayed. If the
   * fingerprints are those of NUL-free methods and URIs, both requests have the same method, URI and body.
   */
  lemma ReplayIsFaithful(run: seq<State>, k: nat, j: Id) returns (i: Id, r: Response)
    requires IsRun(run) && k < |run| && WasReplayed(run[k], j)
    ensures var s := run[k];
      && i in s.calls && s.calls[i].req.scope == s.calls[j].req.scope
      && s.calls[i].req.fingerprint == s.calls[j].req.fingerprint
      && (exists oversized :: s.calls[i].pc == Done(Handler(Responded(r, oversized))))
      && s.calls[j].pc.answer.response == Served(ForStorage(r)) && r.status < 500
    ensures run[k].calls[j].pc.answer.response.body.JsonText? ==>
      !Leaks(run[k].calls[j].pc.answer.response.body.doc)
    ensures forall a, b :: Of(run[k].calls[i].req, a) && Of(run[k].calls[j].req, b) ==> a == b
  {
    var s := run[k];
    RunInv(run, k);
    assert CallOk(s, j, s.calls[j]);
    i :| Source(s, i, s.calls[j].req, s.calls[j].pc.answer.response);
    assert CallOk(s, i, s.calls[i]);
    r := s.calls[i].pc.answer.handled.response;
    StoredBodyIsClean(r.body);
    forall a, b | Of(s.calls[i].req, a) && Of(s.calls[j].req, b) ensures a == b {
      FingerprintIsInjective(a.httpMethod, a.uri, a.body, b.httpMethod, b.uri, b.body);
    }
  }
}
