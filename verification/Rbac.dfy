/**
 * Roles and permissions at the granularity of whole calls: internal/services/permission_service_impl.go,
 * internal/services/role_service_impl.go and internal/repo/gorm/rbac.go.
 */
module Rbac {
  import opened Common

  datatype Role = Role(tenant: Id, name: string, isSystem: bool, isActive: bool)

  datatype Permission = Permission(name: string, resource: string, action: string, isSystem: bool)

  /** The unique key of user_roles. */
  datatype Assignment = Assignment(tenant: Id, user: Id, role: Id)

  /** The unique key of role_permissions. */
  datatype Grant = Grant(role: Id, permission: Id)

  /** The live rows. Assignments carry their expiry. */
  datatype Db = Db(
    roles: map<Id, Role>, permissions: map<Id, Permission>,
    assignments: map<Assignment, Option<Time>>, grants: set<Grant>)

  const MANAGE := "manage"

  datatype Error = NotFound | Duplicate | SystemEntry | StillAssigned | Errs

  // ----- The decision -----

  predicate AssignmentExpired(expires: Option<Time>, now: Time) {
    expires.Some? && now > expires.value
  }

  /** The role counts for the user now: assigned, not expired, existing in the tenant and active. */
  predicate Effective(db: Db, tenant: Id, user: Id, role: Id, now: Time) {
    var a := Assignment(tenant, user, role);
    && a in db.assignments && !AssignmentExpired(db.assignments[a], now)
    && role in db.roles && db.roles[role].tenant == tenant && db.roles[role].isActive
  }

  /** The permission reaches the user through some effective role. */
  ghost predicate Reaches(db: Db, tenant: Id, user: Id, permission: Id, now: Time) {
    permission in db.permissions
    && exists role :: Effective(db, tenant, user, role, now) && Grant(role, permission) in db.grants
  }

  predicate Allows(p: Permission, resource: string, action: string) {
    p.resource == resource && (p.action == action || p.action == MANAGE)
  }

  ghost predicate Permitted(db: Db, tenant: Id, user: Id, resource: string, action: string, now: Time) {
    exists p :: Reaches(db, tenant, user, p, now) && Allows(db.permissions[p], resource, action)
  }

  // ----- The calls that change rows -----

  predicate RoleExists(db: Db, tenant: Id, role: Id) {
    role in db.roles && db.roles[role].tenant == tenant
  }

  function Named(db: Db, names: seq<string>): set<Id> {
    set p | p in db.permissions && db.permissions[p].name in names
  }

  function GrantsTo(role: Id, permissions: set<Id>): set<Grant> {
    set p | p in permissions :: Grant(role, p)
  }

  /** The grants without those of the role, except those whose delete erred. */
  function GrantsWithout(grants: set<Grant>, role: Id, kept: set<Id>): set<Grant> {
    set g | g in grants && (g.role != role || g.permission in kept)
  }

  datatype Op =
    | CreateRole(id: Id, tenant: Id, name: string, named: seq<string>, lost: set<Id>)
    | UpdateRole(tenant: Id, role: Id, isActive: Option<bool>, replaced: Option<seq<string>>,
                 kept: set<Id>, lost: set<Id>)
    | DeleteRole(tenant: Id, role: Id, kept: set<Id>)
    | AddPermission(tenant: Id, role: Id, permission: Id)
    | RemovePermission(tenant: Id, role: Id, permission: Id)
    | AssignToUser(tenant: Id, role: Id, user: Id, expires: Option<Time>)
    | RevokeFromUser(tenant: Id, role: Id, user: Id)
    | CreatePermission(id: Id, row: Permission)
    | UpdatePermission(permission: Id, resource: string, action: string)
    | DeletePermission(permission: Id, stuck: set<Id>, detached: set<Id>)
    | CleanAssignments(now: Time)

  /** What the call does, and its error. Storage errors that a call logs and passes over, or that stop it half
      way, are its parameters: kept are permissions whose grant could not be deleted, lost those whose grant
      could not be inserted, stuck the roles from which a permission could not be detached; fails says that the
      statement on the role, permission, assignment or grant that the call is about errs. */
  function Perform(db: Db, op: Op, fails: bool): (Db, Option<Error>) {
    match op
    case CreateRole(id, tenant, name, names, lost) =>
      if exists r :: r in db.roles && db.roles[r].tenant == tenant && db.roles[r].name == name then (db, Some(Duplicate))
      else if fails then (db, Some(Errs))
      else
        (db.(roles := db.roles[id := Role(tenant, name, false, true)],
             grants := db.grants + GrantsTo(id, Named(db, names) - lost)), None)
    case UpdateRole(tenant, role, active, replaced, kept, lost) =>
      if !RoleExists(db, tenant, role) then (db, Some(NotFound))
      else if db.roles[role].isSystem then (db, Some(SystemEntry))
      else if fails then (db, Some(Errs))
      else
        var saved := db.(roles := db.roles[role := db.roles[role].(isActive :=
          if active.Some? then active.value else db.roles[role].isActive)]);
        if replaced.None? then (saved, None)
        else
          (saved.(grants := GrantsWithout(db.grants, role, kept)
                            + GrantsTo(role, Named(db, replaced.value) - lost)), None)
    case DeleteRole(tenant, role, kept) =>
      if !RoleExists(db, tenant, role) then (db, Some(NotFound))
      else if db.roles[role].isSystem then (db, Some(SystemEntry))
      else if exists a :: a in db.assignments && a.tenant == tenant && a.role == role then (db, Some(StillAssigned))
      else
        var detached := db.(grants := GrantsWithout(db.grants, role, kept));
        if fails then (detached, Some(Errs)) else (detached.(roles := db.roles - {role}), None)
    case AddPermission(tenant, role, p) =>
      if !RoleExists(db, tenant, role) || p !in db.permissions then (db, Some(NotFound))
      else if Grant(role, p) in db.grants then (db, Some(Duplicate))
      else if fails then (db, Some(Errs))
      else (db.(grants := db.grants + {Grant(role, p)}), None)
    case RemovePermission(tenant, role, p) =>
      if !RoleExists(db, tenant, role) || p !in db.permissions then (db, Some(NotFound))
      else if fails then (db, Some(Errs))
      else (db.(grants := db.grants - {Grant(role, p)}), None)
    case AssignToUser(tenant, role, user, expires) =>
      var a := Assignment(tenant, user, role);
      if !RoleExists(db, tenant, role) then (db, Some(NotFound))
      else if a in db.assignments then (db, Some(Duplicate))
      else if fails then (db, Some(Errs))
      else (db.(assignments := db.assignments[a := expires]), None)
    case RevokeFromUser(tenant, role, user) =>
      if !RoleExists(db, tenant, role) then (db, Some(NotFound))
      else if fails then (db, Some(Errs))
      else (db.(assignments := db.assignments - {Assignment(tenant, user, role)}), None)
    case CreatePermission(id, p) =>
      if exists q :: q in db.permissions && db.permissions[q].name == p.name then (db, Some(Duplicate))
      else if fails then (db, Some(Errs))
      else (db.(permissions := db.permissions[id := p.(isSystem := false)]), None)
    case UpdatePermission(p, resource, action) =>
      if p !in db.permissions then (db, Some(NotFound))
      else if db.permissions[p].isSystem then (db, Some(SystemEntry))
      else if fails then (db, Some(Errs))
      else
        var was := db.permissions[p];
        (db.(permissions := db.permissions[p := was.(
           resource := if resource != "" then resource else was.resource,
           action := if action != "" then action else was.action)]), None)
    case DeletePermission(p, stuck, detached) =>
      if p !in db.permissions then (db, Some(NotFound))
      else if db.permissions[p].isSystem then (db, Some(SystemEntry))
      else if exists g :: g in db.grants && g.permission == p && g.role in stuck then
        (db.(grants := set g | g in db.grants && !(g.permission == p && g.role in detached)), Some(Errs))
      else
        var detachedAll := db.(grants := set g | g in db.grants && g.permission != p);
        if fails then (detachedAll, Some(Errs)) else (detachedAll.(permissions := db.permissions - {p}), None)
    case CleanAssignments(now) =>
      if fails then (db, Some(Errs))
      else (db.(assignments := map a | a in db.assignments && !(db.assignments[a].Some? && db.assignments[a].value < now)
                               :: db.assignments[a]), None)
  }

  // ----- Referential integrity -----

  predicate AssignmentsIntact(db: Db) {
    forall a :: a in db.assignments ==> RoleExists(db, a.tenant, a.role)
  }

  predicate GrantIntact(db: Db, g: Grant) {
    g.role in db.roles && g.permission in db.permissions
  }

  predicate Intact(db: Db) {
    AssignmentsIntact(db) && forall g :: g in db.grants ==> GrantIntact(db, g)
  }

  /** What Delete of a role asks for: the role exists, is no system role and is assigned to nobody. */
  predicate Deletable(db: Db, tenant: Id, role: Id) {
    && RoleExists(db, tenant, role) && !db.roles[role].isSystem
    && forall a :: a in db.assignments && a.tenant == tenant ==> a.role != role
  }

  /** The call deletes no role while the delete of a grant of it erred. */
  predicate LeavesNoGrant(db: Db, op: Op, fails: bool) {
    match op
    case DeleteRole(tenant, role, kept) =>
      Deletable(db, tenant, role) && !fails ==> forall g :: g in db.grants && g.role == role ==> g.permission !in kept
    case _ => true
  }

  /** New roles and permissions get new ids. */
  predicate FreshIds(db: Db, op: Op) {
    match op
    case CreateRole(id, _, _, _, _) =>
      id !in db.roles && forall a :: a in db.assignments ==> a.role != id
    case CreatePermission(id, _) => id !in db.permissions
    case _ => true
  }

  lemma AssignmentsStayIntact(db: Db, op: Op, fails: bool)
    requires AssignmentsIntact(db) && FreshIds(db, op)
    ensures AssignmentsIntact(Perform(db, op, fails).0)
  {
  }

  lemma GrantsStayIntact(db: Db, op: Op, fails: bool)
    requires Intact(db) && FreshIds(db, op) && !op.DeleteRole?
    ensures forall g :: g in Perform(db, op, fails).0.grants ==> GrantIntact(Perform(db, op, fails).0, g)
  {
  }

  lemma DeletedRoleGrants(db: Db, tenant: Id, role: Id, kept: set<Id>, fails: bool)
    requires Intact(db)
    ensures var op := DeleteRole(tenant, role, kept);
      (forall g :: g in Perform(db, op, fails).0.grants ==> GrantIntact(Perform(db, op, fails).0, g))
      <==> LeavesNoGrant(db, op, fails)
  {
    var op := DeleteRole(tenant, role, kept);
    var db' := Perform(db, op, fails).0;
    if Deletable(db, tenant, role) && !fails {
      forall g | g in db.grants && g.role == role && g.permission in kept ensures g in db'.grants && !GrantIntact(db', g) {
      }
    }
  }

  /**
   * Every call keeps each assignment pointing to an existing role of its tenant. It keeps each grant pointing
   * to an existing role and permission, too, exactly when it does not delete a role after failing to delete a
   * grant of it, which DeleteRole only logs.
   */
  lemma IntegrityKept(db: Db, op: Op, fails: bool)
    requires Intact(db) && FreshIds(db, op)
    ensures Intact(Perform(db, op, fails).0) <==> LeavesNoGrant(db, op, fails)
  {
    AssignmentsStayIntact(db, op, fails);
    if op.DeleteRole? {
      DeletedRoleGrants(db, op.tenant, op.role, op.kept, fails);
    } else {
      GrantsStayIntact(db, op, fails);
    }
  }

  /** System roles and permissions are never deleted or changed. */
  ghost predicate SystemKept(db: Db, db': Db) {
    && (forall r :: r in db.roles && db.roles[r].isSystem ==> r in db'.roles && db'.roles[r] == db.roles[r])
    && (forall p :: p in db.permissions && db.permissions[p].isSystem ==>
          p in db'.permissions && db'.permissions[p] == db.permissions[p])
  }

  lemma StepKeepsSystem(db: Db, op: Op, fails: bool)
    requires FreshIds(db, op)
    ensures SystemKept(db, Perform(db, op, fails).0)
  {
  }

  datatype Attempt = Attempt(op: Op, fails: bool)

  /** The tables before each call and after the last. */
  ghost predicate IsHistory(dbs: seq<Db>, ops: seq<Attempt>) {
    && |dbs| == |ops| + 1
    && forall k :: 0 <= k < |ops| ==>
      FreshIds(dbs[k], ops[k].op) && dbs[k + 1] == Perform(dbs[k], ops[k].op, ops[k].fails).0
  }

  lemma SystemKeptOn(a: Db, b: Db, c: Db)
    requires SystemKept(a, b) && SystemKept(b, c)
    ensures SystemKept(a, c)
  {
  }

  /** Every sequence of calls leaves system entries as they are. */
  lemma {:induction false} HistoryKeepsSystem(dbs: seq<Db>, ops: seq<Attempt>, n: nat)
    requires IsHistory(dbs, ops) && n <= |ops|
    ensures SystemKept(dbs[0], dbs[n])
  {
    if n > 0 {
      var before, after := dbs[n - 1], dbs[n - 1 + 1];
      HistoryKeepsSystem(dbs, ops, n - 1);
      StepKeepsSystem(before, ops[n - 1].op, ops[n - 1].fails);
      SystemKeptOn(dbs[0], before, after);
    }
  }

  /** Every sequence of calls that leaves no grant behind keeps the tables intact. */
  lemma {:induction false} HistoryKeepsIntact(dbs: seq<Db>, ops: seq<Attempt>, n: nat)
    requires IsHistory(dbs, ops) && n <= |ops| && Intact(dbs[0])
    requires forall k :: 0 <= k < n ==> LeavesNoGrant(dbs[k], ops[k].op, ops[k].fails)
    ensures Intact(dbs[n])
  {
    if n > 0 {
      HistoryKeepsIntact(dbs, ops, n - 1);
      assert dbs[n - 1 + 1] == Perform(dbs[n - 1], ops[n - 1].op, ops[n - 1].fails).0;
      IntegrityKept(dbs[n - 1], ops[n - 1].op, ops[n - 1].fails);
    }
  }

  /** A grant left behind by a deleted role reaches nobody. */
  lemma DanglingGrantsAreHarmless(db: Db, tenant: Id, user: Id, p: Id, now: Time)
    ensures Reaches(db, tenant, user, p, now) <==>
      Reaches(db.(grants := set g | g in db.grants && GrantIntact(db, g)), tenant, user, p, now)
  {
  }
}
