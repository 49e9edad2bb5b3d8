/** The role and permission services in the form of the source: loops over the rows that queries return. */
module RbacService {
  import opened Common
  import opened Rbac

  /** The four tables. Queries return their rows in no particular order. */
  class RbacRepository {
    var roles: map<Id, Role>
    var permissions: map<Id, Permission>
    var assignments: map<Assignment, Option<Time>>
    var grants: set<Grant>

    constructor ()
      ensures Tables() == Db(map[], map[], map[], {})
    {
      roles, permissions, assignments, grants := map[], map[], map[], {};
    }

    function Tables(): Db
      reads this
    {
      Db(roles, permissions, assignments, grants)
    }

    method GetUserRoles(tenant: Id, user: Id) returns (rows: seq<Assignment>)
      ensures forall a :: a in rows <==> a in assignments && a.tenant == tenant && a.user == user
    {
      rows := Elements(set a | a in assignments && a.tenant == tenant && a.user == user);
    }

    method GetRoleUsers(tenant: Id, role: Id) returns (rows: seq<Assignment>)
      ensures forall a :: a in rows <==> a in assignments && a.tenant == tenant && a.role == role
    {
      rows := Elements(set a | a in assignments && a.tenant == tenant && a.role == role);
    }

    method GetRolePermissions(role: Id) returns (rows: seq<Grant>)
      ensures forall g :: g in rows <==> g in grants && g.role == role
    {
      rows := Elements(set g | g in grants && g.role == role);
    }

    method GetPermissionRoles(permission: Id) returns (rows: seq<Grant>)
      ensures forall g :: g in rows <==> g in grants && g.permission == permission
    {
      rows := Elements(set g | g in grants && g.permission == permission);
    }
  }

  /** The rows of a result set, each once. */
  method Elements<T(==)>(s: set<T>) returns (rows: seq<T>)
    ensures forall x :: x in rows <==> x in s
    ensures forall i, j :: 0 <= i < j < |rows| ==> rows[i] != rows[j]
  {
    rows := [];
    var left := s;
    while left != {}
      invariant left <= s
      invariant forall x :: x in rows <==> x in s && x !in left
      invariant forall i, j :: 0 <= i < j < |rows| ==> rows[i] != rows[j]
      decreases |left|
    {
      var x :| x in left;
      rows := rows + [x];
      left := left - {x};
    }
  }

  class PermissionService {
    const repo: RbacRepository

    constructor (repo: RbacRepository)
      ensures this.repo == repo
    {
      this.repo := repo;
    }

    /** The permissions collected so far are those that reach the user through the roles looked at. */
    ghost predicate Collected(ids: seq<Id>, tenant: Id, user: Id, now: Time, rows: set<Assignment>)
      reads repo
    {
      && (forall i, j :: 0 <= i < j < |ids| ==> ids[i] != ids[j])
      && (forall p :: p in ids <==> Through(repo.Tables(), tenant, user, p, now, rows))
    }

    /** The ids of the de-duplicated permissions of the user, in the order in which they are found. */
    method GetUserPermissions(tenant: Id, user: Id, now: Time) returns (ids: seq<Id>)
      ensures forall i, j :: 0 <= i < j < |ids| ==> ids[i] != ids[j]
      ensures forall p :: p in ids <==> Reaches(repo.Tables(), tenant, user, p, now)
    {
      var rows := repo.GetUserRoles(tenant, user);
      ids := [];
      for k := 0 to |rows|
        invariant Collected(ids, tenant, user, now, Elems(rows[..k]))
      {
        var a := rows[k];
        assert rows[..k + 1] == rows[..k] + [a];
        ExtendThrough(repo.Tables(), tenant, user, now, Elems(rows[..k]), a);
        if !AssignmentExpired(repo.assignments[a], now) && a.role in repo.roles
           && repo.roles[a.role].tenant == tenant && repo.roles[a.role].isActive {
          ids := AddRolePermissions(a.role, ids);
        }
        assert Elems(rows[..k + 1]) == Elems(rows[..k]) + {a};
      }
      assert rows[..|rows|] == rows;
      ThroughAll(repo.Tables(), tenant, user, now, Elems(rows));
    }

    /** The inner loop: the existing permissions of one role that were not seen yet. */
    method AddRolePermissions(role: Id, before: seq<Id>) returns (ids: seq<Id>)
      requires forall i, j :: 0 <= i < j < |before| ==> before[i] != before[j]
      ensures forall i, j :: 0 <= i < j < |ids| ==> ids[i] != ids[j]
      ensures forall p :: p in ids <==> p in before || (Grant(role, p) in repo.grants && p in repo.permissions)
    {
      var grants := repo.GetRolePermissions(role);
      ids := before;
      for k := 0 to |grants|
        invariant forall i, j :: 0 <= i < j < |ids| ==> ids[i] != ids[j]
        invariant forall p :: p in ids <==> p in before || (Grant(role, p) in grants[..k] && p in repo.permissions)
      {
        var p := grants[k].permission;
        assert grants[k] == Grant(role, p);
        if p !in ids && p in repo.permissions {
          ids := ids + [p];
        }
      }
      assert grants[..|grants|] == grants;
    }

    /** HasPermission */
    method HasPermission(tenant: Id, user: Id, resource: string, action: string, now: Time) returns (yes: bool)
      ensures yes <==> Permitted(repo.Tables(), tenant, user, resource, action, now)
    {
      var ids := GetUserPermissions(tenant, user, now);
      for k := 0 to |ids|
        invariant forall i :: 0 <= i < k ==> ids[i] in repo.permissions && !Allows(repo.permissions[ids[i]], resource, action)
      {
        assert Reaches(repo.Tables(), tenant, user, ids[k], now);
        var p := repo.permissions[ids[k]];
        if p.resource == resource && (p.action == action || p.action == MANAGE) {
          return true;
        }
      }
      return false;
    }

    /** Delete: detaches the permission from every role, then deletes it; stops at the first detach that errs. */
    method Delete(permission: Id, stuck: set<Id>, fails: bool) returns (err: Option<Error>, ghost detached: set<Id>)
      modifies repo
      ensures (repo.Tables(), err) == Perform(old(repo.Tables()), DeletePermission(permission, stuck, detached), fails)
    {
      detached := {};
      if permission !in repo.permissions {
        return Some(NotFound), detached;
      }
      if repo.permissions[permission].isSystem {
        return Some(SystemEntry), detached;
      }
      ghost var was := repo.Tables();
      var rows := repo.GetPermissionRoles(permission);
      for k := 0 to |rows|
        invariant repo.roles == was.roles && repo.permissions == was.permissions && repo.assignments == was.assignments
        invariant repo.grants == set g | g in was.grants && !(g.permission == permission && g.role in detached)
        invariant forall g :: g in rows[..k] ==> g.role in detached && g.role !in stuck
      {
        var g := rows[k];
        if g.role in stuck {
          return Some(Errs), detached;
        }
        repo.grants := repo.grants - {Grant(g.role, permission)};
        detached := detached + {g.role};
      }
      assert rows[..|rows|] == rows;
      assert forall g :: g in was.grants && g.permission == permission ==> g in rows;
      assert repo.grants == set g | g in was.grants && g.permission != permission;
      if fails {
        return Some(Errs), detached;
      }
      repo.permissions := repo.permissions - {permission};
      return None, detached;
    }
  }

  function Elems<T>(xs: seq<T>): set<T> {
    set x | x in xs
  }

  /** The permission exists and reaches the user through one of the given assignments. */
  ghost predicate Through(db: Db, tenant: Id, user: Id, p: Id, now: Time, rows: set<Assignment>) {
    p in db.permissions
    && exists a :: a in rows && Effective(db, tenant, user, a.role, now) && Grant(a.role, p) in db.grants
  }

  /** What one more assignment adds. */
  lemma ExtendThrough(db: Db, tenant: Id, user: Id, now: Time, rows: set<Assignment>, a: Assignment)
    ensures forall p :: Through(db, tenant, user, p, now, rows + {a}) <==>
      Through(db, tenant, user, p, now, rows) ||
      (p in db.permissions && Effective(db, tenant, user, a.role, now) && Grant(a.role, p) in db.grants)
  {
  }

  /** All assignments of the user together give what reaches the user. */
  lemma ThroughAll(db: Db, tenant: Id, user: Id, now: Time, rows: set<Assignment>)
    requires forall a :: a in rows <==> a in db.assignments && a.tenant == tenant && a.user == user
    ensures forall p :: Through(db, tenant, user, p, now, rows) <==> Reaches(db, tenant, user, p, now)
  {
  }

  class RoleService {
    const repo: RbacRepository

    constructor (repo: RbacRepository)
      ensures this.repo == repo
    {
      this.repo := repo;
    }

    /** The loop that deletes the grants of a role; an error is logged and passed over. */
    method DetachAll(role: Id, kept: set<Id>)
      modifies repo`grants
      ensures repo.grants == GrantsWithout(old(repo.grants), role, kept)
    {
      ghost var was := repo.grants;
      var rows := repo.GetRolePermissions(role);
      for k := 0 to |rows|
        invariant repo.grants == set g | g in was && (g !in rows[..k] || g.permission in kept)
      {
        assert rows[..k + 1] == rows[..k] + [rows[k]];
        if rows[k].permission !in kept {
          repo.grants := repo.grants - {rows[k]};
        }
      }
      assert rows[..|rows|] == rows;
    }

    /** The loop that grants permissions by name; unknown names and errors are logged and passed over. */
    method AttachAll(role: Id, names: seq<string>, lost: set<Id>)
      modifies repo`grants
      ensures repo.grants == old(repo.grants) + GrantsTo(role, Named(repo.Tables(), names) - lost)
    {
      ghost var was := repo.grants;
      for k := 0 to |names|
        invariant repo.grants == was + GrantsTo(role, Named(repo.Tables(), names[..k]) - lost)
      {
        var found := Elements(set p | p in repo.permissions && repo.permissions[p].name == names[k]);
        NamedOneMore(repo.Tables(), names, k, lost, role);
        repo.grants := repo.grants + set p | p in found && p !in lost :: Grant(role, p);
      }
      assert names[..|names|] == names;
    }

    method Create(id: Id, tenant: Id, name: string, names: seq<string>, lost: set<Id>, fails: bool)
      returns (err: Option<Error>)
      modifies repo
      ensures (repo.Tables(), err) == Perform(old(repo.Tables()), CreateRole(id, tenant, name, names, lost), fails)
    {
      if exists r :: r in repo.roles && repo.roles[r].tenant == tenant && repo.roles[r].name == name {
        return Some(Duplicate);
      }
      if fails {
        return Some(Errs);
      }
      repo.roles := repo.roles[id := Role(tenant, name, false, true)];
      AttachAll(id, names, lost);
      return None;
    }

    method Update(tenant: Id, role: Id, isActive: Option<bool>, replaced: Option<seq<string>>, kept: set<Id>,
                  lost: set<Id>, fails: bool) returns (err: Option<Error>)
      modifies repo
      ensures (repo.Tables(), err) ==
        Perform(old(repo.Tables()), UpdateRole(tenant, role, isActive, replaced, kept, lost), fails)
    {
      if role !in repo.roles || repo.roles[role].tenant != tenant {
        return Some(NotFound);
      }
      if repo.roles[role].isSystem {
        return Some(SystemEntry);
      }
      if fails {
        return Some(Errs);
      }
      if isActive.Some? {
        repo.roles := repo.roles[role := repo.roles[role].(isActive := isActive.value)];
      }
      assert repo.roles == old(repo.roles)[role := old(repo.roles)[role].(isActive :=
        if isActive.Some? then isActive.value else old(repo.roles)[role].isActive)];
      if replaced.Some? {
        DetachAll(role, kept);
        assert Named(repo.Tables(), replaced.value) == Named(old(repo.Tables()), replaced.value);
        AttachAll(role, replaced.value, lost);
      }
      return None;
    }

    method Delete(tenant: Id, role: Id, kept: set<Id>, fails: bool) returns (err: Option<Error>)
      modifies repo
      ensures (repo.Tables(), err) == Perform(old(repo.Tables()), DeleteRole(tenant, role, kept), fails)
    {
      if role !in repo.roles || repo.roles[role].tenant != tenant {
        return Some(NotFound);
      }
      if repo.roles[role].isSystem {
        return Some(SystemEntry);
      }
      var users := repo.GetRoleUsers(tenant, role);
      if |users| > 0 {
        assert users[0] in users;
        return Some(StillAssigned);
      }
      DetachAll(role, kept);
      if fails {
        return Some(Errs);
      }
      repo.roles := repo.roles - {role};
      return None;
    }
  }

  lemma NamedOneMore(db: Db, names: seq<string>, k: nat, lost: set<Id>, role: Id)
    requires k < |names|
    ensures var found := set p | p in db.permissions && db.permissions[p].name == names[k];
      GrantsTo(role, Named(db, names[..k + 1]) - lost) ==
      GrantsTo(role, Named(db, names[..k]) - lost) + set p | p in found && p !in lost :: Grant(role, p)
  {
  }
}
