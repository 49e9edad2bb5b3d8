/** What holds over every run of password reset requests, resets and cleanups. */
module PasswordResetRuns {
  import opened Common
  import opened PasswordResets

  /** A reset that was created: its token and when. */
  datatype Made = Made(token: Hash, at: Time)

  /** Every reset ever created for a user, in order. */
  type History = map<Owner, seq<Made>>

  datatype State = State(db: Db, now: Time, past: History)

  datatype Event =
    | Request(o: Option<Owner>, e: RequestEnv)
    | Redemption(tenant: Id, token: string, password: string, env: ResetEnv)
    | Clean
    | Others(users: map<Owner, User>, sessions: map<Hash, Owner>, access: map<Hash, Owner>, refresh: map<Hash, Owner>)
    | Tick(to: Time)

  function MadeFor(past: History, o: Owner): seq<Made> {
    if o in past then past[o] else []
  }

  /** The token of a request is random and so new; Others stands for everything else that touches users,
      sessions and tokens. */
  ghost predicate Enabled(s: State, ev: Event) {
    match ev
    case Request(_, e) =>
      && s.now <= e.countedAt <= e.createdAt && e.token !in s.db.resets
      && forall o, i :: o in s.past && 0 <= i < |s.past[o]| ==> s.past[o][i].token != e.token
    case Redemption(_, _, _, e) => e.now == s.now
    case Tick(to) => s.now <= to
    case _ => true
  }

  ghost function Apply(s: State, ev: Event): State {
    match ev
    case Request(o, e) =>
      var db := Requested(s.db, o, e).0;
      State(db, e.createdAt,
            if e.token in db.resets && o.Some? then
              s.past[o.value := MadeFor(s.past, o.value) + [Made(e.token, e.createdAt)]]
            else s.past)
    case Redemption(tenant, token, password, e) => s.(db := Redeemed(s.db, tenant, token, password, e).0)
    case Clean => s.(db := s.db.(resets := Cleaned(s.db.resets, s.now)))
    case Others(users, sessions, access, refresh) => s.(db := Db(s.db.resets, users, sessions, access, refresh))
    case Tick(to) => s.(now := to)
  }

  ghost predicate Next(s: State, s': State) {
    exists ev :: Enabled(s, ev) && s' == Apply(s, ev)
  }

  /** The k-th state of the run leads to the next. */
  ghost predicate StepAt(run: seq<State>, k: nat) {
    k + 1 < |run| && Next(run[k], run[k + 1])
  }

  ghost predicate IsRun(run: seq<State>) {
    && |run| > 0
    && run[0].db.resets == map[] && run[0].past == map[]
    && forall k: nat :: k + 1 < |run| ==> StepAt(run, k)
  }

  // ----- The invariant -----

  /** Resets were created in order, and each fourth one at least an hour after the first. */
  ghost predicate Paced(ms: seq<Made>, now: Time) {
    && (forall i, j :: 0 <= i < j < |ms| ==> ms[i].at <= ms[j].at && ms[i].token != ms[j].token)
    && (forall i :: 0 <= i < |ms| ==> ms[i].at <= now)
    && (forall i, j :: 0 <= i < j < |ms| && j == i + 3 ==> ms[j].at >= ms[i].at + HOUR)
  }

  /** The reset is still stored, or it was cleaned up a day after its creation. */
  ghost predicate Kept(resets: Resets, o: Owner, m: Made, now: Time) {
    if m.token in resets then resets[m.token].owner == o && resets[m.token].created == m.at else m.at < now - DAY
  }

  /** Only the last reset of a user can be unused. */
  ghost predicate RowOk(ms: seq<Made>, h: Hash, r: Reset) {
    && (exists i :: 0 <= i < |ms| && ms[i].token == h)
    && (!r.used ==> ms[|ms| - 1].token == h)
  }

  ghost predicate OwnerOk(resets: Resets, o: Owner, ms: seq<Made>, now: Time) {
    && Paced(ms, now)
    && (forall i :: 0 <= i < |ms| ==> Kept(resets, o, ms[i], now))
    && (forall h :: h in resets && resets[h].owner == o ==> RowOk(ms, h, resets[h]))
  }

  ghost predicate Inv(s: State) {
    forall o :: OwnerOk(s.db.resets, o, MadeFor(s.past, o), s.now)
  }

  // ----- Every event keeps it -----

  predicate OnlyMarked(r: Reset, r': Reset) {
    r'.owner == r.owner && r'.created == r.created && (r.used ==> r'.used)
  }

  /** The rows are the same up to marks, and only rows of a day ago are gone. */
  ghost predicate OnlyMarks(resets: Resets, resets': Resets, now: Time) {
    && (forall h :: h in resets' ==> h in resets && OnlyMarked(resets[h], resets'[h]))
    && (forall h :: h in resets && h !in resets' ==> resets[h].created < now - DAY)
  }

  lemma MarksKeepOwner(resets: Resets, resets': Resets, o: Owner, ms: seq<Made>, now: Time, later: Time)
    requires OwnerOk(resets, o, ms, now) && OnlyMarks(resets, resets', later) && now <= later
    ensures OwnerOk(resets', o, ms, later)
  {
  }

  /** The three things a redemption can do to the resets. */
  lemma CarriedMarks(db: Db, h: Hash, e: ResetEnv)
    requires h in db.resets && db.resets[h].owner in db.users
    ensures var resets := Carried(db, h, e).0.resets;
      || resets == db.resets
      || resets == MarkedUsed(db.resets, h)
      || resets == UnusedRevoked(MarkedUsed(db.resets, h), db.resets[h].owner)
  {
  }

  lemma RedemptionOnlyMarks(db: Db, tenant: Id, token: string, password: string, e: ResetEnv, now: Time)
    ensures OnlyMarks(db.resets, Redeemed(db, tenant, token, password, e).0.resets, now)
  {
    var found := Redeem(db, tenant, token, password, e.now);
    if found.Ok? {
      CarriedMarks(db, found.value, e);
    }
  }

  /** If the third last reset was made within the hour, the last three are counted. */
  lemma RecentOnesAreCounted(resets: Resets, o: Owner, ms: seq<Made>, now: Time, since: Time)
    requires OwnerOk(resets, o, ms, now) && |ms| >= 3 && ms[|ms| - 3].at > since >= now - HOUR
    ensures CountSince(resets, o, since) >= 3
  {
    var n := |ms|;
    assert Kept(resets, o, ms[n - 3], now) && Kept(resets, o, ms[n - 2], now) && Kept(resets, o, ms[n - 1], now);
    var three := {ms[n - 3].token, ms[n - 2].token, ms[n - 1].token};
    assert |three| == 3;
    SubsetIsSmaller(three, CreatedSince(resets, o, since));
  }

  lemma NewOneIsPaced(resets: Resets, o: Owner, ms: seq<Made>, now: Time, m: Made, countedAt: Time)
    requires OwnerOk(resets, o, ms, now) && now <= countedAt <= m.at
    requires CountSince(resets, o, countedAt - HOUR) < MAX_PER_HOUR
    requires forall i :: 0 <= i < |ms| ==> ms[i].token != m.token
    ensures Paced(ms + [m], m.at)
  {
    if |ms| >= 3 && ms[|ms| - 3].at > countedAt - HOUR {
      RecentOnesAreCounted(resets, o, ms, now, countedAt - HOUR);
    }
  }

  lemma CreationKeepsOwner(resets: Resets, o: Owner, ms: seq<Made>, now: Time, m: Made, countedAt: Time, r: Reset)
    requires OwnerOk(resets, o, ms, now) && now <= countedAt <= m.at && m.token !in resets
    requires CountSince(resets, o, countedAt - HOUR) < MAX_PER_HOUR
    requires forall i :: 0 <= i < |ms| ==> ms[i].token != m.token
    requires r.owner == o && r.created == m.at
    ensures OwnerOk(UnusedRevoked(resets, o)[m.token := r], o, ms + [m], m.at)
  {
    var after := UnusedRevoked(resets, o)[m.token := r];
    NewOneIsPaced(resets, o, ms, now, m, countedAt);
    forall i | 0 <= i < |ms + [m]| ensures Kept(after, o, (ms + [m])[i], m.at) {
      if i < |ms| {
        assert Kept(resets, o, ms[i], now);
      }
    }
    forall h | h in after && after[h].owner == o ensures RowOk(ms + [m], h, after[h]) {
      if h != m.token {
        assert RowOk(ms, h, resets[h]);
        var i :| 0 <= i < |ms| && ms[i].token == h;
        assert (ms + [m])[i].token == h;
      } else {
        assert (ms + [m])[|ms|].token == h;
      }
    }
  }

  lemma OthersCreationKeepsOwner(resets: Resets, o: Owner, ms: seq<Made>, now: Time, h: Hash, r: Reset, later: Time)
    requires OwnerOk(resets, o, ms, now) && now <= later && h !in resets && r.owner != o
    requires forall i :: 0 <= i < |ms| ==> ms[i].token != h
    ensures OwnerOk(UnusedRevoked(resets, r.owner)[h := r], o, ms, later)
  {
  }

  /** The three things a request can do to the resets. */
  lemma RequestShape(db: Db, o: Option<Owner>, e: RequestEnv)
    requires e.token !in db.resets
    ensures var resets := Requested(db, o, e).0.resets;
      if e.token in resets then
        && o.Some? && CountSince(db.resets, o.value, e.countedAt - HOUR) < MAX_PER_HOUR
        && resets == UnusedRevoked(db.resets, o.value)
                       [e.token := Reset(o.value, e.createdAt, e.createdAt + RESET_DURATION, false)]
      else resets == db.resets || (o.Some? && resets == UnusedRevoked(db.resets, o.value))
  {
  }

  lemma RequestKeepsOwner(s: State, o: Option<Owner>, e: RequestEnv, x: Owner)
    requires OwnerOk(s.db.resets, x, MadeFor(s.past, x), s.now) && Enabled(s, Request(o, e))
    ensures var s' := Apply(s, Request(o, e)); OwnerOk(s'.db.resets, x, MadeFor(s'.past, x), s'.now)
  {
    var ms, resets := MadeFor(s.past, x), Requested(s.db, o, e).0.resets;
    RequestShape(s.db, o, e);
    if e.token !in resets {
      MarksKeepOwner(s.db.resets, resets, x, ms, s.now, e.createdAt);
    } else {
      var r := Reset(o.value, e.createdAt, e.createdAt + RESET_DURATION, false);
      if x == o.value {
        CreationKeepsOwner(s.db.resets, x, ms, s.now, Made(e.token, e.createdAt), e.countedAt, r);
      } else {
        OthersCreationKeepsOwner(s.db.resets, x, ms, s.now, e.token, r, e.createdAt);
      }
    }
  }

  lemma RequestKeepsInv(s: State, o: Option<Owner>, e: RequestEnv)
    requires Inv(s) && Enabled(s, Request(o, e))
    ensures Inv(Apply(s, Request(o, e)))
  {
    var s' := Apply(s, Request(o, e));
    forall x ensures OwnerOk(s'.db.resets, x, MadeFor(s'.past, x), s'.now) {
      assert OwnerOk(s.db.resets, x, MadeFor(s.past, x), s.now);
      RequestKeepsOwner(s, o, e, x);
    }
  }

  lemma EventKeepsInv(s: State, ev: Event)
    requires Inv(s) && Enabled(s, ev)
    ensures Inv(Apply(s, ev))
  {
    if ev.Request? {
      RequestKeepsInv(s, ev.o, ev.e);
    } else {
      var s' := Apply(s, ev);
      if ev.Redemption? {
        RedemptionOnlyMarks(s.db, ev.tenant, ev.token, ev.password, ev.env, s'.now);
      }
      forall x ensures OwnerOk(s'.db.resets, x, MadeFor(s'.past, x), s'.now) {
        assert OwnerOk(s.db.resets, x, MadeFor(s.past, x), s.now);
        MarksKeepOwner(s.db.resets, s'.db.resets, x, MadeFor(s.past, x), s.now, s'.now);
      }
    }
  }

  lemma {:induction false} RunInv(run: seq<State>, k: nat)
    requires IsRun(run) && k < |run|
    ensures Inv(run[k])
  {
    if k > 0 {
      RunInv(run, k - 1);
      assert StepAt(run, k - 1);
      var ev :| Enabled(run[k - 1], ev) && run[k] == Apply(run[k - 1], ev);
      EventKeepsInv(run[k - 1], ev);
    }
  }

  // ----- The theorems -----

  /** The resets of a user created in the hour that ends at t. */
  function InHour(ms: seq<Made>, t: Time): set<nat> {
    set i: nat | i < |ms| && t - HOUR < ms[i].at <= t
  }

  lemma ThreeFit(s: set<nat>, m: nat)
    requires forall i :: i in s ==> m <= i < m + 3
    ensures |s| <= 3
  {
    var three := {m, m + 1, m + 2};
    assert s <= three;
    assert |three| == 3;
    SubsetIsSmaller(s, three);
  }

  lemma {:induction false} Least(s: set<nat>) returns (m: nat)
    requires s != {}
    ensures m in s && forall i :: i in s ==> m <= i
  {
    m :| m in s;
    var rest := s - {m};
    if rest != {} {
      var k := Least(rest);
      assert forall i :: i in s ==> i == m || i in rest;
      m := if k < m then k else m;
    } else {
      assert forall i :: i in s ==> i == m || i in rest;
    }
  }

  lemma HourHoldsThree(ms: seq<Made>, now: Time, t: Time)
    requires Paced(ms, now)
    ensures |InHour(ms, t)| <= MAX_PER_HOUR
  {
    var s := InHour(ms, t);
    if s != {} {
      var m := Least(s);
      assert forall i :: m + 3 <= i < |ms| ==> ms[i].at >= ms[m + 3].at;
      assert m + 3 < |ms| ==> ms[m + 3].at >= ms[m].at + HOUR;
      ThreeFit(s, m);
    }
  }

  ghost function UnusedOf(resets: Resets, o: Owner): set<Hash> {
    set h | h in resets && resets[h].owner == o && !resets[h].used
  }

  /** In every half-open hour at most three resets are created for a user, and at any time at most one of a
      user's resets is unused. */
  lemma ResetsAreLimited(run: seq<State>, k: nat, o: Owner, t: Time)
    requires IsRun(run) && k < |run|
    ensures |InHour(MadeFor(run[k].past, o), t)| <= MAX_PER_HOUR
    ensures |UnusedOf(run[k].db.resets, o)| <= 1
  {
    RunInv(run, k);
    var ms := MadeFor(run[k].past, o);
    assert OwnerOk(run[k].db.resets, o, ms, run[k].now);
    HourHoldsThree(ms, run[k].now, t);
    if h :| h in UnusedOf(run[k].db.resets, o) {
      OneUnused(run[k], o, h);
    }
  }

  /** A reset that was carried through leaves nothing but, if its last statement failed, unused resets other
      than its own. */
  lemma CarriedLeaves(db: Db, h: Hash, e: ResetEnv)
    requires h in db.resets && db.resets[h].owner in db.users && Carried(db, h, e).1.Ok?
    ensures var (db', r) := Carried(db, h, e);
      && r.value == db.resets[h].owner
      && (forall x :: x in db'.sessions ==> db'.sessions[x] != r.value)
      && (forall x :: x in db'.access ==> db'.access[x] != r.value)
      && (forall x :: x in db'.refresh ==> db'.refresh[x] != r.value)
      && UnusedOf(db'.resets, r.value) <= UnusedOf(db.resets, r.value) - {h}
      && r.value in db'.users && db'.users[r.value].password == e.hashed
  {
  }

  lemma OneUnused(s: State, o: Owner, h: Hash)
    requires Inv(s) && h in UnusedOf(s.db.resets, o)
    ensures UnusedOf(s.db.resets, o) == {h}
  {
    var ms := MadeFor(s.past, o);
    assert OwnerOk(s.db.resets, o, ms, s.now);
    forall x | x in UnusedOf(s.db.resets, o) ensures x == h {
      assert RowOk(ms, x, s.db.resets[x]) && RowOk(ms, h, s.db.resets[h]);
    }
  }

  /**
   * A completed reset leaves the user no session, access token, refresh token or unused reset, whether or
   * not its last statement failed: the reset it redeemed was the user's only unused one.
   */
  lemma ResetLeavesNothing(run: seq<State>, k: nat, tenant: Id, token: string, password: string, e: ResetEnv)
    requires IsRun(run) && k < |run| && Redeemed(run[k].db, tenant, token, password, e).1.Ok?
    ensures var (db, r) := Redeemed(run[k].db, tenant, token, password, e);
      && (forall h :: h in db.sessions ==> db.sessions[h] != r.value)
      && (forall h :: h in db.access ==> db.access[h] != r.value)
      && (forall h :: h in db.refresh ==> db.refresh[h] != r.value)
      && UnusedOf(db.resets, r.value) == {}
      && r.value in db.users && db.users[r.value].password == e.hashed
  {
    RunInv(run, k);
    var h := Sha256(token);
    CarriedLeaves(run[k].db, h, e);
    OneUnused(run[k], run[k].db.resets[h].owner, h);
  }

  // ----- When a reset is created and when it completes -----

  /** A reset can be redeemed for an hour. */
  ghost predicate AllForAnHour(resets: Resets) {
    forall h :: h in resets ==> resets[h].expires == resets[h].created + 3600
  }

  lemma RedemptionKeepsHour(db: Db, tenant: Id, token: string, password: string, e: ResetEnv)
    requires AllForAnHour(db.resets)
    ensures AllForAnHour(Redeemed(db, tenant, token, password, e).0.resets)
  {
    var found := Redeem(db, tenant, token, password, e.now);
    if found.Ok? {
      CarriedMarks(db, found.value, e);
    }
  }

  lemma RequestKeepsHour(db: Db, o: Option<Owner>, e: RequestEnv)
    requires AllForAnHour(db.resets)
    ensures AllForAnHour(Requested(db, o, e).0.resets)
  {
  }

  lemma EventKeepsHour(s: State, ev: Event)
    requires AllForAnHour(s.db.resets) && Enabled(s, ev)
    ensures AllForAnHour(Apply(s, ev).db.resets)
  {
    match ev
    case Redemption(tenant, token, password, e) => RedemptionKeepsHour(s.db, tenant, token, password, e);
    case Request(o, e) => RequestKeepsHour(s.db, o, e);
    case _ =>
  }

  lemma {:induction false} RunKeepsHour(run: seq<State>, k: nat)
    requires IsRun(run) && k < |run|
    ensures AllForAnHour(run[k].db.resets)
  {
    if k > 0 {
      RunKeepsHour(run, k - 1);
      assert StepAt(run, k - 1);
      var ev :| Enabled(run[k - 1], ev) && run[k] == Apply(run[k - 1], ev);
      EventKeepsHour(run[k - 1], ev);
    }
  }

  /** No storage call errs that the answer depends on; the last statement is only logged. */
  predicate NothingErrs(fault: ResetFault) {
    fault == AllGood || fault == AtRevoke
  }

  /** The token is that of a stored, unused reset of the tenant, not an hour old, of a user who is not suspended,
      and the password is long enough. */
  predicate Due(s: State, tenant: Id, token: string, password: string) {
    var h := Sha256(token);
    && |password| >= 8 && token != "" && h in s.db.resets
    && var r := s.db.resets[h];
    && r.owner.tenant == tenant && !r.used && s.now < r.created + 3600
    && r.owner in s.db.users && s.db.users[r.owner].status != Suspended
  }

  /**
   * Over every run a reset completes exactly when it is due and nothing errs; then the user has the new password
   * and no failed logins, a lockout that had an end is lifted, nobody else changes, and the token cannot be used
   * again. An attempt that is not due changes nothing.
   */
  lemma ResetCompletesExactly(run: seq<State>, k: nat, tenant: Id, token: string, password: string, e: ResetEnv)
    requires IsRun(run) && k < |run| && e.now == run[k].now
    ensures var s, h := run[k], Sha256(token);
      var (db, r) := Redeemed(s.db, tenant, token, password, e);
      && (r.Ok? <==> Due(s, tenant, token, password) && NothingErrs(e.fault))
      && (!Due(s, tenant, token, password) ==> db == s.db)
      && (r.Ok? ==>
            var o := s.db.resets[h].owner;
            var u, u' := s.db.users[o], db.users[o];
            && r.value == o && db.users == s.db.users[o := u'] && db.resets[h].used
            && u'.password == e.hashed && u'.failedLogins == 0
            && (u.status == Locked && u.lockedUntil.Some? ==> u'.status == Active && u'.lockedUntil.None?)
            && (!(u.status == Locked && u.lockedUntil.Some?) ==>
                  u'.status == u.status && u'.lockedUntil == u.lockedUntil))
  {
    RunKeepsHour(run, k);
  }

  /**
   * A request creates a reset exactly for a known user who is not suspended, with fewer than three in the hour
   * before, unless a statement up to the insert errs. It can be redeemed for an hour, and is the only one of the
   * user that can.
   */
  lemma ResetIsCreatedExactly(s: State, o: Option<Owner>, e: RequestEnv)
    requires Enabled(s, Request(o, e))
    ensures var db := Apply(s, Request(o, e)).db;
      && (e.token in db.resets <==>
            && o.Some? && o.value in s.db.users && s.db.users[o.value].status != Suspended
            && |CreatedSince(s.db.resets, o.value, e.countedAt - 3600)| < 3
            && e.fault != BeforeRevoke && e.fault != AtCreate)
      && (e.token in db.resets ==>
            && db.resets[e.token] == Reset(o.value, e.createdAt, e.createdAt + 3600, false)
            && UnusedOf(db.resets, o.value) == {e.token})
  {
  }
}
