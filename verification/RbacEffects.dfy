/**
 * When the calls of Rbac succeed, and what each of them does to who holds which role and what the roles give.
 * These two decide what a user may.
 */
module RbacEffects {
  import opened Common
  import opened Rbac

  /** The user holds the role now: it is assigned, and the assignment has not expired. */
  predicate HoldsRole(db: Db, tenant: Id, user: Id, role: Id, now: Time) {
    var a := Assignment(tenant, user, role);
    a in db.assignments && (db.assignments[a].Some? ==> now <= db.assignments[a].value)
  }

  /** The existing permissions that are granted to the role. */
  ghost function GrantedTo(db: Db, role: Id): set<Id> {
    set p | p in db.permissions && Grant(role, p) in db.grants
  }

  /** What the role gives whoever holds it in the tenant: nothing while it is inactive. */
  ghost function Gives(db: Db, tenant: Id, role: Id): set<Id> {
    if role in db.roles && db.roles[role].tenant == tenant && db.roles[role].isActive then GrantedTo(db, role) else {}
  }

  /** A permission reaches a user exactly if a role that the user holds gives it. */
  lemma ReachesIsGiven(db: Db, tenant: Id, user: Id, p: Id, now: Time)
    ensures Reaches(db, tenant, user, p, now) <==>
      exists role :: HoldsRole(db, tenant, user, role, now) && p in Gives(db, tenant, role)
  {
    if Reaches(db, tenant, user, p, now) {
      var role :| Effective(db, tenant, user, role, now) && Grant(role, p) in db.grants;
      assert HoldsRole(db, tenant, user, role, now) && p in Gives(db, tenant, role);
    }
    if role :| HoldsRole(db, tenant, user, role, now) && p in Gives(db, tenant, role) {
      assert Effective(db, tenant, user, role, now) && Grant(role, p) in db.grants;
    }
  }

  // ----- Frames -----

  ghost predicate SameHolders(db: Db, db': Db) {
    forall tenant, user, role, now ::
      HoldsRole(db', tenant, user, role, now) <==> HoldsRole(db, tenant, user, role, now)
  }

  /** Every other role gives what it gave. */
  ghost predicate OthersGiveTheSame(db: Db, db': Db, role: Id) {
    forall tenant, other :: other != role ==> Gives(db', tenant, other) == Gives(db, tenant, other)
  }

  ghost predicate AllGiveTheSame(db: Db, db': Db) {
    forall tenant, role :: Gives(db', tenant, role) == Gives(db, tenant, role)
  }

  // ----- Roles -----

  /** The permissions with one of the names, but for those whose grant could not be inserted. */
  ghost function ByName(db: Db, names: seq<string>, lost: set<Id>): set<Id> {
    set p | p in db.permissions && db.permissions[p].name in names && p !in lost
  }

  /** A role is created exactly if its name is free in the tenant; it gives the permissions named, to nobody yet. */
  lemma RoleCreationTakesEffect(db: Db, id: Id, tenant: Id, name: string, names: seq<string>, lost: set<Id>,
                                fails: bool)
    requires id !in db.roles && forall g :: g in db.grants ==> g.role != id
    ensures var (db', err) := Perform(db, CreateRole(id, tenant, name, names, lost), fails);
      && (err == Some(Duplicate) <==>
            exists r :: r in db.roles && db.roles[r].tenant == tenant && db.roles[r].name == name)
      && (err.None? <==> err != Some(Duplicate) && !fails)
      && (err.Some? ==> db' == db)
      && (err.None? ==>
            && id in db'.roles && db'.roles[id].tenant == tenant && db'.roles[id].name == name
            && !db'.roles[id].isSystem
            && Gives(db', tenant, id) == ByName(db, names, lost)
            && SameHolders(db, db') && OthersGiveTheSame(db, db', id))
  {
    var db' := Perform(db, CreateRole(id, tenant, name, names, lost), fails).0;
    if db' != db {
      assert GrantedTo(db', id) == ByName(db, names, lost);
      SameGrantsGive(db, db', id);
    }
  }

  /** Roles that keep their row and their grants give the same. */
  lemma SameGrantsGive(db: Db, db': Db, role: Id)
    requires db'.permissions == db.permissions
    requires forall r :: r != role ==> (r in db'.roles <==> r in db.roles)
    requires forall r :: r != role && r in db.roles ==> db'.roles[r] == db.roles[r]
    requires forall g: Grant :: g.role != role ==> (g in db'.grants <==> g in db.grants)
    ensures OthersGiveTheSame(db, db', role)
  {
    forall tenant, other | other != role ensures Gives(db', tenant, other) == Gives(db, tenant, other) {
      assert GrantedTo(db', other) == GrantedTo(db, other);
    }
  }

  /**
   * A role is updated exactly if it exists in the tenant and is no system role. Deactivating it takes effect at
   * once: it gives nothing. Otherwise it gives what it was granted, or, if permissions were named, those, and
   * the ones whose old grant could not be deleted.
   */
  lemma RoleUpdateTakesEffect(db: Db, tenant: Id, role: Id, active: Option<bool>, replaced: Option<seq<string>>,
                              kept: set<Id>, lost: set<Id>, fails: bool)
    ensures var (db', err) := Perform(db, UpdateRole(tenant, role, active, replaced, kept, lost), fails);
      && (err == Some(NotFound) <==> role !in db.roles || db.roles[role].tenant != tenant)
      && (err == Some(SystemEntry) <==> err != Some(NotFound) && db.roles[role].isSystem)
      && (err.None? <==> err != Some(NotFound) && !db.roles[role].isSystem && !fails)
      && (err.Some? ==> db' == db)
      && (err.None? ==>
            && role in db'.roles && db'.roles[role].name == db.roles[role].name
            && (active == Some(false) ==> Gives(db', tenant, role) == {})
            && (active == Some(true) || (active.None? && db.roles[role].isActive) ==>
                  Gives(db', tenant, role) ==
                    if replaced.None? then GrantedTo(db, role)
                    else (GrantedTo(db, role) * kept) + ByName(db, replaced.value, lost))
            && (active.None? ==> db'.roles[role] == db.roles[role])
            && SameHolders(db, db') && OthersGiveTheSame(db, db', role))
  {
    var db' := Perform(db, UpdateRole(tenant, role, active, replaced, kept, lost), fails).0;
    if db' != db {
      SameGrantsGive(db, db', role);
      if replaced.Some? {
        assert GrantedTo(db', role) == (GrantedTo(db, role) * kept) + ByName(db, replaced.value, lost);
      } else {
        assert GrantedTo(db', role) == GrantedTo(db, role);
      }
    }
  }

  /** A role is deleted exactly if it exists in the tenant, is no system role and is assigned to nobody there; it
      then gives nothing. */
  lemma RoleDeletionTakesEffect(db: Db, tenant: Id, role: Id, kept: set<Id>, fails: bool)
    ensures var (db', err) := Perform(db, DeleteRole(tenant, role, kept), fails);
      && (err.None? <==>
            && role in db.roles && db.roles[role].tenant == tenant && !db.roles[role].isSystem && !fails
            && forall a :: a in db.assignments && a.tenant == tenant ==> a.role != role)
      && (err == Some(NotFound) || err == Some(SystemEntry) || err == Some(StillAssigned) ==> db' == db)
      && (err.None? ==>
            && role !in db'.roles && forall t :: Gives(db', t, role) == {})
      && SameHolders(db, db') && OthersGiveTheSame(db, db', role)
  {
    var db' := Perform(db, DeleteRole(tenant, role, kept), fails).0;
    SameGrantsGive(db, db', role);
  }

  /** A role is assigned exactly if it exists in the tenant and the user has no assignment of it; the user then
      holds it until it expires, and nothing else changes. */
  lemma AssignmentTakesEffect(db: Db, tenant: Id, role: Id, user: Id, expires: Option<Time>, fails: bool)
    ensures var (db', err) := Perform(db, AssignToUser(tenant, role, user, expires), fails);
      && (err.None? <==>
            && role in db.roles && db.roles[role].tenant == tenant && !fails
            && Assignment(tenant, user, role) !in db.assignments)
      && (err.Some? ==> db' == db)
      && (err.None? ==>
            && (forall now :: HoldsRole(db', tenant, user, role, now) <==> expires.None? || now <= expires.value)
            && AllGiveTheSame(db, db')
            && forall t: Id, u: Id, r: Id, now: Time :: !(t == tenant && u == user && r == role) ==>
                 (HoldsRole(db', t, u, r, now) <==> HoldsRole(db, t, u, r, now)))
  {
    var db' := Perform(db, AssignToUser(tenant, role, user, expires), fails).0;
    forall t, r ensures Gives(db', t, r) == Gives(db, t, r) {
      assert GrantedTo(db', r) == GrantedTo(db, r);
    }
  }

  /** Taking a role from a user takes effect at once, and takes it from nobody else. */
  lemma RevocationTakesEffect(db: Db, tenant: Id, role: Id, user: Id, fails: bool)
    ensures var (db', err) := Perform(db, RevokeFromUser(tenant, role, user), fails);
      && (err.None? <==> role in db.roles && db.roles[role].tenant == tenant && !fails)
      && (err.Some? ==> db' == db)
      && (err.None? ==>
            && (forall now :: !HoldsRole(db', tenant, user, role, now))
            && AllGiveTheSame(db, db')
            && forall t: Id, u: Id, r: Id, now: Time :: !(t == tenant && u == user && r == role) ==>
                 (HoldsRole(db', t, u, r, now) <==> HoldsRole(db, t, u, r, now)))
  {
    var db' := Perform(db, RevokeFromUser(tenant, role, user), fails).0;
    forall t, r ensures Gives(db', t, r) == Gives(db, t, r) {
      assert GrantedTo(db', r) == GrantedTo(db, r);
    }
  }

  /** Cleaning up assignments changes nobody's roles from then on. */
  lemma CleanupTakesNothing(db: Db, at: Time, now: Time, tenant: Id, user: Id, role: Id, fails: bool)
    requires at <= now
    ensures var db' := Perform(db, CleanAssignments(at), fails).0;
      && (HoldsRole(db', tenant, user, role, now) <==> HoldsRole(db, tenant, user, role, now))
      && Gives(db', tenant, role) == Gives(db, tenant, role)
  {
    var db' := Perform(db, CleanAssignments(at), fails).0;
    assert GrantedTo(db', role) == GrantedTo(db, role);
  }

  // ----- Permissions -----

  /** Granting a permission to a role adds it to what the role is granted, and taking it away removes it; both
      change nothing else. */
  lemma GrantTakesEffect(db: Db, tenant: Id, role: Id, p: Id, add: bool, fails: bool)
    ensures var op := if add then AddPermission(tenant, role, p) else RemovePermission(tenant, role, p);
      var (db', err) := Perform(db, op, fails);
      && (err.None? <==>
            && role in db.roles && db.roles[role].tenant == tenant && p in db.permissions && !fails
            && (add ==> Grant(role, p) !in db.grants))
      && (err.Some? ==> db' == db)
      && (err.None? ==>
            && GrantedTo(db', role) == (if add then GrantedTo(db, role) + {p} else GrantedTo(db, role) - {p})
            && db'.roles == db.roles && SameHolders(db, db') && OthersGiveTheSame(db, db', role))
  {
    var op := if add then AddPermission(tenant, role, p) else RemovePermission(tenant, role, p);
    var db' := Perform(db, op, fails).0;
    SameGrantsGive(db, db', role);
  }

  /** A permission is deleted exactly if it exists, is no system permission and can be detached from every role;
      no role gives it then, and all give the rest of what they gave. */
  lemma PermissionDeletionTakesEffect(db: Db, p: Id, stuck: set<Id>, detached: set<Id>, fails: bool)
    ensures var (db', err) := Perform(db, DeletePermission(p, stuck, detached), fails);
      && (err.None? <==>
            && p in db.permissions && !db.permissions[p].isSystem && !fails
            && forall g :: g in db.grants && g.permission == p ==> g.role !in stuck)
      && (err == Some(NotFound) || err == Some(SystemEntry) ==> db' == db)
      && (err.None? ==>
            && SameHolders(db, db')
            && forall tenant, role :: Gives(db', tenant, role) == Gives(db, tenant, role) - {p})
  {
    var (db', err) := Perform(db, DeletePermission(p, stuck, detached), fails);
    if err.None? {
      forall tenant, role ensures Gives(db', tenant, role) == Gives(db, tenant, role) - {p} {
        assert GrantedTo(db', role) == GrantedTo(db, role) - {p};
      }
    }
  }
}
