/**
 * The domain resolver of internal/middleware/tenant_resolver.go: overlapping Resolve calls share a cache over
 * a tenant table that changes under them.
 */
module TenantResolver {
  import opened Common

  /** A tenant as GetByDomain finds it. */
  datatype Tenant = Tenant(id: Id, active: bool)

  /** What Resolve answers: a tenant and whether it counts as found. */
  datatype Answer = Answer(tenant: Option<Id>, found: bool)

  datatype Entry = Entry(answer: Answer, expires: Time)

  type Entries = map<string, Entry>

  type Tenants = map<string, Tenant>

  const MAX_ENTRIES := 10_000

  const NOT_FOUND := Answer(None, false)

  /** The answer of a lookup without a cache. */
  function Direct(tenants: Tenants, domain: string): Answer {
    if domain in tenants then Answer(Some(tenants[domain].id), tenants[domain].active) else NOT_FOUND
  }

  /** Where a call is: before its read of the cache, its clock check, its lookup, the stamping of its result,
      the store into the cache, or done. */
  datatype Pc =
    | Reading
    | Checking(entry: Entry)
    | LookingUp
    | Stamping(answer: Answer)
    | Storing(entry: Entry)
    | Done(answer: Answer, failed: bool)

  datatype Call = Call(domain: string, pc: Pc)

  datatype Env = Env(now: Time, lookupFails: bool)

  /** The store of Resolve: a full cache is emptied first. */
  function Stored(entries: Entries, domain: string, e: Entry): Entries {
    (if |entries| >= MAX_ENTRIES then map[] else entries)[domain := e]
  }

  /** What the next step of a call makes of the cache, and where the call is after it. */
  function Decide(ttl: int, entries: Entries, tenants: Tenants, c: Call, e: Env): (Entries, Pc) {
    match c.pc
    case Reading =>
      if c.domain == "" then (entries, Done(NOT_FOUND, false))
      else (entries, if c.domain in entries then Checking(entries[c.domain]) else LookingUp)
    case Checking(entry) =>
      (entries, if e.now < entry.expires then Done(entry.answer, false) else LookingUp)
    case LookingUp =>
      (entries, if e.lookupFails then Done(NOT_FOUND, true) else Stamping(Direct(tenants, c.domain)))
    case Stamping(answer) => (entries, Storing(Entry(answer, e.now + ttl)))
    case Storing(entry) => (Stored(entries, c.domain, entry), Done(entry.answer, false))
    case Done(_, _) => (entries, c.pc)
  }

  function Rank(pc: Pc): nat {
    match pc
    case Reading => 5
    case Checking(_) => 4
    case LookingUp => 3
    case Stamping(_) => 2
    case Storing(_) => 1
    case Done(_, _) => 0
  }

  lemma StepsTerminate(ttl: int, entries: Entries, tenants: Tenants, c: Call, e: Env)
    requires !c.pc.Done?
    ensures Rank(Decide(ttl, entries, tenants, c, e).1) < Rank(c.pc)
  {
  }

  // ----- Overlapping calls -----

  type CallId = nat

  datatype State = State(entries: Entries, tenants: Tenants, calls: map<CallId, Call>, now: Time)

  datatype Event =
    | Begin(id: CallId, domain: string)
    | Step(id: CallId, e: Env)
    | Change(tenants: Tenants)
    | Tick(to: Time)

  ghost predicate Enabled(s: State, ev: Event) {
    match ev
    case Begin(id, _) => id !in s.calls
    case Step(id, e) => id in s.calls && !s.calls[id].pc.Done? && e.now == s.now
    case Change(_) => true
    case Tick(to) => s.now <= to
  }

  function Apply(ttl: int, s: State, ev: Event): State {
    match ev
    case Begin(id, domain) => s.(calls := s.calls[id := Call(domain, Reading)])
    case Step(id, e) =>
      if id in s.calls then
        var (entries, pc) := Decide(ttl, s.entries, s.tenants, s.calls[id], e);
        s.(entries := entries, calls := s.calls[id := s.calls[id].(pc := pc)])
      else s
    case Change(tenants) => s.(tenants := tenants)
    case Tick(to) => s.(now := to)
  }

  ghost predicate Next(ttl: int, s: State, s': State) {
    exists ev :: Enabled(s, ev) && s' == Apply(ttl, s, ev)
  }

  /** The k-th state of the run leads to the next. */
  ghost predicate StepAt(ttl: int, run: seq<State>, k: nat) {
    k + 1 < |run| && Next(ttl, run[k], run[k + 1])
  }

  ghost predicate IsRun(ttl: int, run: seq<State>) {
    && |run| > 0
    && run[0].entries == map[] && run[0].calls == map[]
    && forall k: nat :: k + 1 < |run| ==> StepAt(ttl, run, k)
  }

  // ----- Where an answer comes from -----

  /** In state m call j looked up the domain directly, and got this answer. */
  ghost predicate LookedUp(run: seq<State>, m: nat, j: CallId, domain: string, answer: Answer)
    requires m < |run|
  {
    j in run[m].calls && run[m].calls[j] == Call(domain, LookingUp) && answer == Direct(run[m].tenants, domain)
  }

  /** The same call stamped the answer in state n, at or after its lookup in state m, not later than state k. */
  ghost predicate Stamped(run: seq<State>, m: nat, n: nat, k: nat, j: CallId, domain: string, e: Entry, ttl: int) {
    && m < n <= k < |run| && LookedUp(run, m, j, domain, e.answer)
    && j in run[n].calls && run[n].calls[j] == Call(domain, Stamping(e.answer)) && e.expires == run[n].now + ttl
  }

  ghost predicate Backed(ttl: int, run: seq<State>, k: nat, domain: string, e: Entry) {
    exists j, m, n :: Stamped(run, m, n, k, j, domain, e, ttl)
  }

  /** The call looked the answer up itself. */
  ghost predicate FirstHand(run: seq<State>, k: nat, i: CallId, domain: string, answer: Answer) {
    exists m :: 0 <= m <= k < |run| && LookedUp(run, m, i, domain, answer)
  }

  /** The call found the answer in an entry that had not expired in state c, when it checked. */
  ghost predicate Cached(ttl: int, run: seq<State>, c: nat, k: nat, i: CallId, domain: string, answer: Answer,
                         expires: Time) {
    && c <= k < |run| && i in run[c].calls && run[c].calls[i] == Call(domain, Checking(Entry(answer, expires)))
    && run[c].now < expires && Backed(ttl, run, c, domain, Entry(answer, expires))
  }

  ghost predicate SecondHand(ttl: int, run: seq<State>, k: nat, i: CallId, domain: string, answer: Answer) {
    exists c, expires :: Cached(ttl, run, c, k, i, domain, answer, expires)
  }

  ghost predicate CallOk(ttl: int, run: seq<State>, k: nat, i: CallId, c: Call) {
    && (c.domain == "" ==> c.pc.Reading? || c.pc.Done?)
    && match c.pc
       case Checking(entry) => Backed(ttl, run, k, c.domain, entry)
       case Stamping(answer) => exists m :: 0 <= m < k < |run| && LookedUp(run, m, i, c.domain, answer)
       case Storing(entry) => Backed(ttl, run, k, c.domain, entry) && FirstHand(run, k, i, c.domain, entry.answer)
       case Done(answer, failed) =>
         if failed || c.domain == "" then answer == NOT_FOUND
         else FirstHand(run, k, i, c.domain, answer) || SecondHand(ttl, run, k, i, c.domain, answer)
       case _ => true
  }

  ghost predicate Inv(ttl: int, run: seq<State>, k: nat)
    requires k < |run|
  {
    && EntriesOk(ttl, run, k, run[k].entries)
    && (forall i :: i in run[k].calls ==> CallOk(ttl, run, k, i, run[k].calls[i]))
  }

  lemma BackedLater(ttl: int, run: seq<State>, k: nat, l: nat, domain: string, e: Entry)
    requires k + 1 == l < |run| && Backed(ttl, run, k, domain, e)
    ensures Backed(ttl, run, l, domain, e)
  {
    var j, m, n :| Stamped(run, m, n, k, j, domain, e, ttl);
    assert Stamped(run, m, n, l, j, domain, e, ttl);
  }

  lemma FirstHandLater(run: seq<State>, k: nat, l: nat, i: CallId, domain: string, answer: Answer)
    requires k + 1 == l < |run| && FirstHand(run, k, i, domain, answer)
    ensures FirstHand(run, l, i, domain, answer)
  {
  }

  lemma SecondHandLater(ttl: int, run: seq<State>, k: nat, l: nat, i: CallId, domain: string, answer: Answer)
    requires k + 1 == l < |run| && SecondHand(ttl, run, k, i, domain, answer)
    ensures SecondHand(ttl, run, l, i, domain, answer)
  {
    var c, expires :| Cached(ttl, run, c, k, i, domain, answer, expires);
    assert Cached(ttl, run, c, l, i, domain, answer, expires);
  }

  lemma CallStaysOk(ttl: int, run: seq<State>, k: nat, l: nat, i: CallId, c: Call)
    requires k + 1 == l < |run| && CallOk(ttl, run, k, i, c)
    ensures CallOk(ttl, run, l, i, c)
  {
    match c.pc
    case Checking(entry) => BackedLater(ttl, run, k, l, c.domain, entry);
    case Storing(entry) =>
      BackedLater(ttl, run, k, l, c.domain, entry);
      FirstHandLater(run, k, l, i, c.domain, entry.answer);
    case Done(answer, failed) =>
      if !failed && c.domain != "" {
        if FirstHand(run, k, i, c.domain, answer) {
          FirstHandLater(run, k, l, i, c.domain, answer);
        } else {
          SecondHandLater(ttl, run, k, l, i, c.domain, answer);
        }
      }
    case _ =>
  }

  lemma StepperStaysOk(ttl: int, run: seq<State>, k: nat, l: nat, i: CallId, e: Env)
    requires k + 1 == l < |run| && Inv(ttl, run, k) && Enabled(run[k], Step(i, e))
    requires run[l] == Apply(ttl, run[k], Step(i, e))
    ensures CallOk(ttl, run, l, i, run[l].calls[i])
  {
    var c, c' := run[k].calls[i], run[l].calls[i];
    assert CallOk(ttl, run, k, i, c);
    match c.pc
    case Reading =>
      if c'.pc.Checking? {
        BackedLater(ttl, run, k, l, c.domain, c'.pc.entry);
      }
    case Checking(entry) =>
      if c'.pc.Done? && c.domain != "" {
        assert Cached(ttl, run, k, l, i, c.domain, entry.answer, entry.expires);
      }
    case LookingUp =>
      assert c'.pc.Stamping? ==> LookedUp(run, k, i, c.domain, c'.pc.answer);
    case Stamping(answer) =>
      var m :| 0 <= m < k && LookedUp(run, m, i, c.domain, answer);
      assert Stamped(run, m, k, l, i, c.domain, c'.pc.entry, ttl);
    case Storing(entry) => FirstHandLater(run, k, l, i, c.domain, entry.answer);
    case Done(_, _) =>
  }

  ghost predicate EntriesOk(ttl: int, run: seq<State>, k: nat, entries: Entries) {
    |entries| <= MAX_ENTRIES && forall d :: d in entries ==> Backed(ttl, run, k, d, entries[d])
  }

  lemma EntriesLater(ttl: int, run: seq<State>, k: nat, l: nat, entries: Entries)
    requires k + 1 == l < |run| && EntriesOk(ttl, run, k, entries)
    ensures EntriesOk(ttl, run, l, entries)
  {
    forall d | d in entries ensures Backed(ttl, run, l, d, entries[d]) {
      BackedLater(ttl, run, k, l, d, entries[d]);
    }
  }

  lemma StepKeepsEntries(ttl: int, run: seq<State>, k: nat, l: nat, i: CallId, e: Env)
    requires k + 1 == l < |run| && EntriesOk(ttl, run, l, run[k].entries) && Enabled(run[k], Step(i, e))
    requires CallOk(ttl, run, l, i, run[k].calls[i]) && run[l] == Apply(ttl, run[k], Step(i, e))
    ensures EntriesOk(ttl, run, l, run[l].entries)
  {
  }

  lemma EventKeepsInv(ttl: int, run: seq<State>, k: nat, l: nat, ev: Event)
    requires k + 1 == l < |run| && Inv(ttl, run, k) && Enabled(run[k], ev) && run[l] == Apply(ttl, run[k], ev)
    ensures Inv(ttl, run, l)
  {
    EntriesLater(ttl, run, k, l, run[k].entries);
    if ev.Step? {
      CallStaysOk(ttl, run, k, l, ev.id, run[k].calls[ev.id]);
      StepKeepsEntries(ttl, run, k, l, ev.id, ev.e);
    }
    forall i | i in run[l].calls ensures CallOk(ttl, run, l, i, run[l].calls[i]) {
      if ev.Step? && ev.id == i {
        StepperStaysOk(ttl, run, k, l, i, ev.e);
      } else if i in run[k].calls {
        CallStaysOk(ttl, run, k, l, i, run[k].calls[i]);
      }
    }
  }

  lemma NextKeepsInv(ttl: int, run: seq<State>, k: nat, l: nat)
    requires k + 1 == l < |run| && Inv(ttl, run, k) && Next(ttl, run[k], run[l])
    ensures Inv(ttl, run, l)
  {
    var ev :| Enabled(run[k], ev) && run[l] == Apply(ttl, run[k], ev);
    EventKeepsInv(ttl, run, k, l, ev);
  }

  lemma {:induction false} RunInv(ttl: int, run: seq<State>, k: nat)
    requires IsRun(ttl, run) && k < |run|
    ensures Inv(ttl, run, k)
  {
    if k > 0 {
      RunInv(ttl, run, k - 1);
      assert StepAt(ttl, run, k - 1);
      NextKeepsInv(ttl, run, k - 1, k);
    }
  }

  lemma {:induction false} ClockNeverRunsBack(ttl: int, run: seq<State>, m: nat, k: nat)
    requires IsRun(ttl, run) && m <= k < |run|
    ensures run[m].now <= run[k].now
  {
    if m < k {
      ClockNeverRunsBack(ttl, run, m, k - 1);
      assert StepAt(ttl, run, k - 1);
    }
  }

  /** In state c the call was checking an unexpired entry with this answer, which another call had looked up
      in state m and stamped in state n. */
  ghost predicate FoundCached(ttl: int, run: seq<State>, m: nat, n: nat, c: nat, i: CallId,
                              domain: string, answer: Answer)
    requires m < n <= c < |run|
  {
    && i in run[c].calls && run[c].calls[i].domain == domain && run[c].calls[i].pc.Checking?
    && var entry := run[c].calls[i].pc.entry;
    && entry.answer == answer && run[c].now < entry.expires == run[n].now + ttl
    && exists j :: LookedUp(run, m, j, domain, answer) &&
                   j in run[n].calls && run[n].calls[j] == Call(domain, Stamping(answer))
  }

  /**
   * Every answer that no lookup error caused is the direct answer in some earlier state m. Either the call
   * itself looked it up in that state, or it found it, at the instant c at which it checked its entry, less than
   * ttl, plus the time from m to n that one lookup took to be stamped, after that state.
   */
  lemma AnswersAreFresh(ttl: int, run: seq<State>, k: nat, i: CallId) returns (m: nat, n: nat, c: nat)
    requires IsRun(ttl, run) && k < |run| && i in run[k].calls && run[k].calls[i].domain != ""
    requires run[k].calls[i].pc.Done? && !run[k].calls[i].pc.failed
    ensures m <= n <= c <= k && run[m].now <= run[n].now <= run[c].now <= run[k].now
    ensures run[k].calls[i].pc.answer == Direct(run[m].tenants, run[k].calls[i].domain)
    ensures var domain, answer := run[k].calls[i].domain, run[k].calls[i].pc.answer;
      || (m == n == c && LookedUp(run, m, i, domain, answer))
      || (m < n && FoundCached(ttl, run, m, n, c, i, domain, answer)
          && run[c].now - run[m].now < ttl + (run[n].now - run[m].now))
  {
    RunInv(ttl, run, k);
    var call := run[k].calls[i];
    assert CallOk(ttl, run, k, i, call);
    if FirstHand(run, k, i, call.domain, call.pc.answer) {
      m :| 0 <= m <= k && LookedUp(run, m, i, call.domain, call.pc.answer);
      n, c := m, m;
    } else {
      var expires: Time;
      c, expires :| Cached(ttl, run, c, k, i, call.domain, call.pc.answer, expires);
      var j: CallId;
      j, m, n :| Stamped(run, m, n, c, j, call.domain, Entry(call.pc.answer, expires), ttl);
      assert FoundCached(ttl, run, m, n, c, i, call.domain, call.pc.answer);
    }
    ClockNeverRunsBack(ttl, run, m, n);
    ClockNeverRunsBack(ttl, run, n, c);
    ClockNeverRunsBack(ttl, run, c, k);
  }

  /** The cache never exceeds 10000 entries, and an entry always holds the direct answer of some lookup that
      succeeded: errors are never cached. */
  lemma CacheIsBoundedAndTrue(ttl: int, run: seq<State>, k: nat)
    requires IsRun(ttl, run) && k < |run|
    ensures |run[k].entries| <= MAX_ENTRIES
    ensures forall d :: d in run[k].entries ==>
      exists m: nat :: m < k && run[k].entries[d].answer == Direct(run[m].tenants, d)
  {
    RunInv(ttl, run, k);
    forall d | d in run[k].entries
      ensures exists m: nat :: m < k && run[k].entries[d].answer == Direct(run[m].tenants, d)
    {
      assert Backed(ttl, run, k, d, run[k].entries[d]);
      var j: CallId, m: nat, n: nat :| Stamped(run, m, n, k, j, d, run[k].entries[d], ttl);
      assert run[k].entries[d].answer == Direct(run[m].tenants, d);
    }
  }

  // ----- The resolver object -----

  /** The environment of the call's k-th step, and what others did to the cache and the tenants before it. */
  datatype World = World(env: nat -> Env, others: (nat, Entries, Tenants) -> (Entries, Tenants))

  /** A call that is at its k-th step, run to its end. */
  ghost function Run(ttl: int, entries: Entries, tenants: Tenants, c: Call, w: World, k: nat): (Entries, Pc)
    decreases Rank(c.pc)
  {
    if c.pc.Done? then (entries, c.pc)
    else
      var (now, there) := w.others(k, entries, tenants);
      var (after, pc) := Decide(ttl, now, there, c, w.env(k));
      StepsTerminate(ttl, now, there, c, w.env(k));
      Run(ttl, after, there, Call(c.domain, pc), w, k + 1)
  }

  lemma RunStep(ttl: int, entries: Entries, tenants: Tenants, c: Call, w: World, k: nat)
    requires !c.pc.Done?
    ensures var (now, there) := w.others(k, entries, tenants);
      var (after, pc) := Decide(ttl, now, there, c, w.env(k));
      Run(ttl, entries, tenants, c, w, k) == Run(ttl, after, there, Call(c.domain, pc), w, k + 1)
  {
  }

  /** Nobody touches the cache or the tenants while the call runs. */
  ghost predicate Undisturbed(w: World) {
    forall k: nat :: Quiet(w, k)
  }

  ghost predicate Quiet(w: World, k: nat) {
    forall x, y :: w.others(k, x, y) == (x, y)
  }

  /**
   * A call alone: an unexpired entry is the answer, without a lookup and whatever the tenant has become since.
   * Otherwise the domain is looked up: its tenant, or that there is none, is the answer and is cached until ttl
   * later, in a cache that is emptied first if it is full; an error is answered and not cached.
   */
  ghost predicate ResolvedAlone(ttl: int, entries: Entries, tenants: Tenants, domain: string, w: World,
                                entries': Entries, answer: Answer, failed: bool) {
    var hit := domain in entries && w.env(1).now < entries[domain].expires;
    var k := if domain in entries then 2 else 1;
    && (domain == "" ==> entries' == entries && answer == Answer(None, false) && !failed)
    && (domain != "" && hit ==> entries' == entries && answer == entries[domain].answer && !failed)
    && (domain != "" && !hit ==>
          && failed == w.env(k).lookupFails
          && (failed ==> entries' == entries && answer == Answer(None, false))
          && (!failed ==>
                && answer == (if domain in tenants then Answer(Some(tenants[domain].id), tenants[domain].active)
                              else Answer(None, false))
                && entries' == (if |entries| >= 10_000 then map[] else entries)
                                 [domain := Entry(answer, w.env(k + 1).now + ttl)]))
  }

  lemma LookupAlone(ttl: int, entries: Entries, tenants: Tenants, domain: string, w: World, k: nat)
    requires Undisturbed(w)
    ensures var found := if domain in tenants then Answer(Some(tenants[domain].id), tenants[domain].active)
                         else Answer(None, false);
      Run(ttl, entries, tenants, Call(domain, LookingUp), w, k) ==
        if w.env(k).lookupFails then (entries, Done(Answer(None, false), true))
        else
          ((if |entries| >= 10_000 then map[] else entries)[domain := Entry(found, w.env(k + 1).now + ttl)],
           Done(found, false))
  {
    assert Quiet(w, k) && Quiet(w, k + 1) && Quiet(w, k + 2);
    var found := if domain in tenants then Answer(Some(tenants[domain].id), tenants[domain].active)
                 else Answer(None, false);
    RunStep(ttl, entries, tenants, Call(domain, LookingUp), w, k);
    if !w.env(k).lookupFails {
      RunStep(ttl, entries, tenants, Call(domain, Stamping(found)), w, k + 1);
      RunStep(ttl, entries, tenants, Call(domain, Storing(Entry(found, w.env(k + 1).now + ttl))), w, k + 2);
    }
  }

  lemma ResolveAlone(ttl: int, entries: Entries, tenants: Tenants, domain: string, w: World)
    requires Undisturbed(w)
    ensures var (entries', pc) := Run(ttl, entries, tenants, Call(domain, Reading), w, 0);
      pc.Done? && ResolvedAlone(ttl, entries, tenants, domain, w, entries', pc.answer, pc.failed)
  {
    assert Quiet(w, 0) && Quiet(w, 1);
    RunStep(ttl, entries, tenants, Call(domain, Reading), w, 0);
    if domain != "" {
      if domain in entries {
        RunStep(ttl, entries, tenants, Call(domain, Checking(entries[domain])), w, 1);
        LookupAlone(ttl, entries, tenants, domain, w, 2);
      } else {
        LookupAlone(ttl, entries, tenants, domain, w, 1);
      }
    }
  }

  class TenantRepository {
    var tenants: Tenants

    constructor (tenants: Tenants)
      ensures this.tenants == tenants
    {
      this.tenants := tenants;
    }

    method GetByDomain(domain: string) returns (tenant: Option<Tenant>)
      ensures tenant == if domain in tenants then Some(tenants[domain]) else None
    {
      return if domain in tenants then Some(tenants[domain]) else None;
    }
  }

  class DomainTenantResolver {
    const lookup: TenantRepository
    const ttl: int
    var entries: Entries

    constructor (lookup: TenantRepository, ttl: int)
      ensures this.lookup == lookup && this.ttl == ttl && entries == map[]
    {
      this.lookup, this.ttl, entries := lookup, ttl, map[];
    }

    method Interleave(w: World, k: nat)
      modifies this`entries, lookup
      ensures (entries, lookup.tenants) == w.others(k, old(entries), old(lookup.tenants))
    {
      var (now, there) := w.others(k, entries, lookup.tenants);
      entries, lookup.tenants := now, there;
    }

    method Resolve(domain: string, w: World) returns (answer: Answer, failed: bool)
      modifies this`entries, lookup
      ensures Run(ttl, old(entries), old(lookup.tenants), Call(domain, Reading), w, 0) == (entries, Done(answer, failed))
      ensures Undisturbed(w) ==>
        ResolvedAlone(ttl, old(entries), old(lookup.tenants), domain, w, entries, answer, failed)
    {
      if Undisturbed(w) {
        ResolveAlone(ttl, entries, lookup.tenants, domain, w);
      }
      RunStep(ttl, entries, lookup.tenants, Call(domain, Reading), w, 0);
      Interleave(w, 0);
      if domain == "" {
        return NOT_FOUND, false;
      }
      if domain in entries {
        var entry := entries[domain];
        RunStep(ttl, entries, lookup.tenants, Call(domain, Checking(entry)), w, 1);
        Interleave(w, 1);
        if w.env(1).now < entry.expires {
          return entry.answer, false;
        }
        answer, failed := Refresh(domain, w, 2);
      } else {
        answer, failed := Refresh(domain, w, 1);
      }
    }

    /** Resolve from the lookup on. */
    method Refresh(domain: string, w: World, k: nat) returns (answer: Answer, failed: bool)
      modifies this`entries, lookup
      ensures Run(ttl, old(entries), old(lookup.tenants), Call(domain, LookingUp), w, k) == (entries, Done(answer, failed))
    {
      RunStep(ttl, entries, lookup.tenants, Call(domain, LookingUp), w, k);
      Interleave(w, k);
      if w.env(k).lookupFails {
        return NOT_FOUND, true;
      }
      var tenant := lookup.GetByDomain(domain);
      if tenant.Some? {
        answer := Answer(Some(tenant.value.id), tenant.value.active);
      } else {
        answer := NOT_FOUND;
      }
      RunStep(ttl, entries, lookup.tenants, Call(domain, Stamping(answer)), w, k + 1);
      Interleave(w, k + 1);
      var entry := Entry(answer, w.env(k + 1).now + ttl);
      RunStep(ttl, entries, lookup.tenants, Call(domain, Storing(entry)), w, k + 2);
      Interleave(w, k + 2);
      if |entries| >= MAX_ENTRIES {
        entries := map[];
      }
      entries := entries[domain := entry];
      return answer, false;
    }
  }
}
