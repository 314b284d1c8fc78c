/**
 What every reachable state of the tables satisfies.  The role shapes and the
 reference and uniqueness rules are the schema's own constraints; the rest is
 what the migrated contract seeds and no transaction may undo.
 */
module AccessInvariant {
  import opened Domain
  import opened Policy
  import opened AccessTables
  import opened AccessFrame

  predicate RoleShape(row: RoleRow) {
    && row.tier <= 1000
    && (row.tier < 1000 || row.isSuperAdmin)
    && (row.isSystem || 1 <= row.tier <= 999)
    && (row.isProtected ==> row.isSystem)
    && (row.isSystem ==> row.active && !row.deleted)
    && (row.deleted ==> !row.active)
    && (row.isSuperAdmin ==> row.isSystem && row.isProtected && row.active && row.tier == 1000 && row.key == SuperAdminKey)
    && (row.key == SuperAdminKey ==> row.isSystem && row.isProtected && row.isSuperAdmin && row.active && row.tier == 1000)
    && (row.key == AdminKey ==> row.isSystem && !row.isProtected && !row.isSuperAdmin && row.active && row.tier == 500)
    && (row.key == UserKey ==> row.isSystem && !row.isProtected && !row.isSuperAdmin && row.active && row.tier == 0)
  }

  ghost predicate RolesWellShaped(t: Tables) {
    && (forall r :: r in t.roles ==> RoleShape(t.roles[r]))
    && (forall r :: r in t.roles && t.roles[r].isSystem ==> !t.roles[r].key.CustomKey?)
    && (forall r, s :: r in t.roles && s in t.roles && t.roles[r].key == t.roles[s].key ==> r == s)
  }

  ghost predicate RowsResolve(t: Tables) {
    && (forall u, r :: (u, r) in t.bindings ==> u in t.users && r in t.roles && !t.roles[r].deleted)
    && (forall r, p :: (r, p) in t.grants ==> r in t.roles && !t.roles[r].deleted)
  }

  /** The permission set the migration seeds for a built-in role. */
  function SeededPermissions(key: RoleKey): set<Permission>
    requires !key.CustomKey?
  {
    if key == SuperAdminKey then SUPER_ADMIN_PERMISSIONS else if key == AdminKey then ADMIN_PERMISSIONS else {}
  }

  ghost predicate GrantsSound(t: Tables) {
    && (forall r :: r in t.roles && !t.roles[r].key.CustomKey? ==>
          t.PermissionsOf(r) == SeededPermissions(t.roles[r].key))
    && (forall r, p :: (r, p) in t.grants ==> p in SUPER_ADMIN_PERMISSIONS)
    && (forall r, p :: (r, p) in t.grants && r in t.roles && !t.roles[r].isSuperAdmin ==> p != RegistrationConfigure)
  }

  ghost predicate HoldsBase(t: Tables, u: UserId) {
    exists r :: (u, r) in t.bindings && r in t.roles && t.roles[r].key == UserKey
  }

  ghost predicate Bounded(t: Tables) {
    && (forall u :: t.Live(u) ==> HoldsBase(t, u))
    && (forall u :: |t.RolesOf(u)| <= MAX_ROLES_PER_USER)
  }

  ghost predicate HoldsSuper(t: Tables, u: UserId) {
    exists r :: (u, r) in t.bindings && r in t.roles && t.roles[r].isSuperAdmin
  }

  ghost predicate OneSuperAdmin(t: Tables) {
    exists h :: HoldsSuper(t, h) && forall u :: HoldsSuper(t, u) ==> u == h
  }

  ghost predicate Inv(t: Tables) {
    && RolesWellShaped(t)
    && RowsResolve(t)
    && GrantsSound(t)
    && Bounded(t)
    && OneSuperAdmin(t)
  }

  /** The invariant again, with the built-in roles, their grants and the super administrator exactly as before. */
  ghost predicate Preserved(t: Tables, t': Tables) {
    && Inv(t')
    && (forall r :: r in t.roles && t.roles[r].isSystem ==>
          r in t'.roles && t'.roles[r] == t.roles[r] && t'.PermissionsOf(r) == t.PermissionsOf(r))
    && (forall r :: r in t'.roles && t'.roles[r].isSystem ==> r in t.roles && t.roles[r].isSystem)
    && (forall u :: HoldsSuper(t', u) <==> HoldsSuper(t, u))
    && (forall u :: u in t.users ==> u in t'.users && t'.Live(u) == t.Live(u))
    && t'.catalog == t.catalog
  }

  lemma PreservedTransitive(a: Tables, b: Tables, c: Tables)
    requires Preserved(a, b) && Preserved(b, c)
    ensures Preserved(a, c)
  {
  }

  lemma SmallerSet<T>(small: set<T>, big: set<T>)
    requires small <= big
    ensures |small| <= |big|
  {
    assert small + (big - small) == big;
  }

  // ----- what keeps each part -----

  lemma SuperKept(t: Tables, t': Tables)
    requires RolesWellShaped(t) && RolesWellShaped(t') && RowsResolve(t) && RowsResolve(t')
    requires forall r :: r in t.roles && t.roles[r].isSystem ==> r in t'.roles && t'.roles[r] == t.roles[r]
    requires forall r :: r in t'.roles && t'.roles[r].isSystem ==> r in t.roles && t.roles[r].isSystem
    requires forall u: UserId, r: RoleId :: r in t.roles && t.roles[r].isSuperAdmin ==>
               ((u, r) in t'.bindings <==> (u, r) in t.bindings)
    ensures forall u :: HoldsSuper(t', u) <==> HoldsSuper(t, u)
    ensures OneSuperAdmin(t) ==> OneSuperAdmin(t')
  {
    forall u: UserId ensures HoldsSuper(t', u) <==> HoldsSuper(t, u) {
      if HoldsSuper(t, u) {
        var r :| (u, r) in t.bindings && r in t.roles && t.roles[r].isSuperAdmin;
        assert (u, r) in t'.bindings;
      }
      if HoldsSuper(t', u) {
        var r :| (u, r) in t'.bindings && r in t'.roles && t'.roles[r].isSuperAdmin;
        assert (u, r) in t.bindings;
      }
    }
  }

  lemma BaseKept(t: Tables, t': Tables)
    requires forall u :: t.Live(u) ==> HoldsBase(t, u)
    requires forall r :: r in t.roles && t.roles[r].key == UserKey ==> r in t'.roles && t'.roles[r].key == UserKey
    requires forall u: UserId, r: RoleId :: r in t.roles && t.roles[r].key == UserKey && (u, r) in t.bindings ==> (u, r) in t'.bindings
    ensures forall u :: t.Live(u) ==> HoldsBase(t', u)
  {
    forall u: UserId | t.Live(u) ensures HoldsBase(t', u) {
      var r :| (u, r) in t.bindings && r in t.roles && t.roles[r].key == UserKey;
      assert (u, r) in t'.bindings;
    }
  }

  lemma LimitKept(t: Tables, t': Tables)
    requires forall u :: |t.RolesOf(u)| <= MAX_ROLES_PER_USER
    requires forall b :: b in t'.bindings ==> b in t.bindings
    ensures forall u :: |t'.RolesOf(u)| <= MAX_ROLES_PER_USER
  {
    forall u: UserId ensures |t'.RolesOf(u)| <= MAX_ROLES_PER_USER {
      SmallerSet(t'.RolesOf(u), t.RolesOf(u));
    }
  }

  lemma SameGrantRows(t: Tables, t': Tables)
    requires t'.grants == t.grants
    ensures forall r :: t'.PermissionsOf(r) == t.PermissionsOf(r)
  {
    forall r: RoleId ensures t'.PermissionsOf(r) == t.PermissionsOf(r) {
    }
  }

  // ----- one lemma per kind of table change -----

  lemma UserRowKeepsInv(t: Tables, t': Tables, target: UserId)
    requires Inv(t) && target in t.users && target in t'.users
    requires t' == t.(users := t.users[target := t'.users[target]], epoch := t'.epoch)
    requires t'.users[target].deleted == t.users[target].deleted
    ensures Preserved(t, t')
  {
    hide RolesWellShaped, RowsResolve, GrantsSound, Bounded, OneSuperAdmin, HoldsSuper;
    UserRowKeepsRows(t, t', target);
    UserRowKeepsRest(t, t', target);
    GrantsKept(t, t');
    SameGrantRows(t, t');
    hide Tables.PermissionsOf;
  }

  lemma UserRowKeepsRows(t: Tables, t': Tables, target: UserId)
    requires RolesWellShaped(t) && RowsResolve(t) && target in t.users && target in t'.users
    requires t' == t.(users := t.users[target := t'.users[target]], epoch := t'.epoch)
    ensures RolesWellShaped(t') && RowsResolve(t')
  {
  }

  lemma UserRowKeepsRest(t: Tables, t': Tables, target: UserId)
    requires RolesWellShaped(t) && RowsResolve(t) && RolesWellShaped(t') && RowsResolve(t') && Bounded(t) && OneSuperAdmin(t)
    requires target in t.users && target in t'.users && t'.users[target].deleted == t.users[target].deleted
    requires t' == t.(users := t.users[target := t'.users[target]], epoch := t'.epoch)
    ensures Bounded(t') && OneSuperAdmin(t') && forall u :: HoldsSuper(t', u) <==> HoldsSuper(t, u)
  {
    LimitKept(t, t');
    BaseKept(t, t');
    SuperKept(t, t');
  }

  lemma RolesChangedKeepsInv(t: Tables, operation: RoleOperation, target: UserId, changed: set<RoleId>, t': Tables)
    requires Inv(t) && target in t.users
    requires t' == WithRolesChanged(t, operation, target, changed)
    requires forall r :: r in changed ==> r in t.roles && !t.roles[r].deleted && !t.roles[r].isSuperAdmin
    requires operation == Bind ==> changed == {} || |t.RolesOf(target)| + |changed| <= MAX_ROLES_PER_USER
    requires operation == Unbind ==> forall r :: r in changed ==> t.roles[r].key != UserKey
    ensures Preserved(t, t')
  {
    hide RolesWellShaped, RowsResolve, Bounded, HoldsSuper, OneSuperAdmin, GrantsSound;
    RolesChangedKeepsRows(t, operation, target, changed, t');
    RolesChangedKeepsBounded(t, operation, target, changed, t');
    RolesChangedKeepsSuper(t, operation, target, changed, t');
    SameGrantRows(t, t');
    GrantsKept(t, t');
    hide Tables.RolesOf, Tables.PermissionsOf, Pairs;
  }

  lemma GrantsKept(t: Tables, t': Tables)
    requires GrantsSound(t) && t'.roles == t.roles && t'.grants == t.grants
    ensures GrantsSound(t')
  {
    SameGrantRows(t, t');
  }

  lemma RolesChangedKeepsSuper(t: Tables, operation: RoleOperation, target: UserId, changed: set<RoleId>, t': Tables)
    requires RolesWellShaped(t) && RowsResolve(t) && RowsResolve(t') && OneSuperAdmin(t) && target in t.users
    requires t' == WithRolesChanged(t, operation, target, changed)
    requires forall r :: r in changed ==> r in t.roles && !t.roles[r].isSuperAdmin
    ensures forall u :: HoldsSuper(t', u) <==> HoldsSuper(t, u)
    ensures OneSuperAdmin(t')
  {
    assert t'.roles == t.roles;
    SuperKept(t, t');
  }

  lemma RolesChangedKeepsRows(t: Tables, operation: RoleOperation, target: UserId, changed: set<RoleId>, t': Tables)
    requires RolesWellShaped(t) && RowsResolve(t) && target in t.users
    requires t' == WithRolesChanged(t, operation, target, changed)
    requires forall r :: r in changed ==> r in t.roles && !t.roles[r].deleted
    ensures RolesWellShaped(t') && RowsResolve(t')
  {
  }

  lemma RolesChangedKeepsBounded(t: Tables, operation: RoleOperation, target: UserId, changed: set<RoleId>, t': Tables)
    requires Bounded(t) && target in t.users && t' == WithRolesChanged(t, operation, target, changed)
    requires operation == Bind ==> changed == {} || |t.RolesOf(target)| + |changed| <= MAX_ROLES_PER_USER
    requires operation == Unbind ==> forall r :: r in changed && r in t.roles ==> t.roles[r].key != UserKey
    ensures Bounded(t')
  {
    RolesChangedKeepsLimit(t, operation, target, changed, t');
    BaseKept(t, t');
  }

  lemma RolesChangedKeepsLimit(t: Tables, operation: RoleOperation, target: UserId, changed: set<RoleId>, t': Tables)
    requires forall u :: |t.RolesOf(u)| <= MAX_ROLES_PER_USER
    requires target in t.users
    requires t' == WithRolesChanged(t, operation, target, changed)
    requires operation == Bind ==> changed == {} || |t.RolesOf(target)| + |changed| <= MAX_ROLES_PER_USER
    ensures forall u :: |t'.RolesOf(u)| <= MAX_ROLES_PER_USER
  {
    forall u: UserId ensures |t'.RolesOf(u)| <= MAX_ROLES_PER_USER {
      if u == target && operation == Bind && changed != {} {
        SmallerSet(t'.RolesOf(u), t.RolesOf(u) + changed);
      } else {
        SmallerSet(t'.RolesOf(u), t.RolesOf(u));
      }
    }
  }

  lemma NewRoleKeepsInv(t: Tables, id: RoleId, row: RoleRow, t': Tables)
    requires Inv(t) && id !in t.roles
    requires RoleShape(row) && !row.isSystem && !row.isSuperAdmin && row.key.CustomKey?
    requires forall r :: r in t.roles ==> t.roles[r].key != row.key
    requires t' == t.(roles := t.roles[id := row], epoch := t.epoch + 1)
    ensures Preserved(t, t')
  {
    hide RolesWellShaped, RowsResolve, GrantsSound, Bounded, OneSuperAdmin, HoldsSuper;
    NewRoleKeepsRows(t, id, row, t');
    NewRoleKeepsBounded(t, id, row, t');
    NewRoleKeepsSuper(t, id, row, t');
    SameGrantRows(t, t');
    hide RoleShape, Tables.PermissionsOf;
  }

  lemma NewRoleKeepsBounded(t: Tables, id: RoleId, row: RoleRow, t': Tables)
    requires Bounded(t) && id !in t.roles && t' == t.(roles := t.roles[id := row], epoch := t.epoch + 1)
    ensures Bounded(t')
  {
    LimitKept(t, t');
    BaseKept(t, t');
  }

  lemma NewRoleKeepsSuper(t: Tables, id: RoleId, row: RoleRow, t': Tables)
    requires RolesWellShaped(t) && RowsResolve(t) && RolesWellShaped(t') && RowsResolve(t') && OneSuperAdmin(t)
    requires id !in t.roles && !row.isSystem && t' == t.(roles := t.roles[id := row], epoch := t.epoch + 1)
    ensures forall u :: HoldsSuper(t', u) <==> HoldsSuper(t, u)
    ensures OneSuperAdmin(t')
  {
    SuperKept(t, t');
  }

  lemma NewRoleKeepsRows(t: Tables, id: RoleId, row: RoleRow, t': Tables)
    requires RolesWellShaped(t) && RowsResolve(t) && GrantsSound(t) && id !in t.roles
    requires RoleShape(row) && !row.isSystem && !row.isSuperAdmin && row.key.CustomKey?
    requires forall r :: r in t.roles ==> t.roles[r].key != row.key
    requires t' == t.(roles := t.roles[id := row], epoch := t.epoch + 1)
    ensures RolesWellShaped(t') && RowsResolve(t') && GrantsSound(t')
  {
    hide RolesWellShaped, RowsResolve, GrantsSound, RoleShape;
    NewRoleKeepsShapes(t, id, row, t');
    NewRoleKeepsReferences(t, id, row, t');
    NewRoleKeepsGrants(t, id, row, t');
  }

  lemma NewRoleKeepsShapes(t: Tables, id: RoleId, row: RoleRow, t': Tables)
    requires RolesWellShaped(t) && id !in t.roles && RoleShape(row) && !row.isSystem
    requires forall r :: r in t.roles ==> t.roles[r].key != row.key
    requires t'.roles == t.roles[id := row]
    ensures RolesWellShaped(t')
  {
    hide RoleShape;
  }

  lemma NewRoleKeepsReferences(t: Tables, id: RoleId, row: RoleRow, t': Tables)
    requires RowsResolve(t) && id !in t.roles
    requires t' == t.(roles := t.roles[id := row], epoch := t.epoch + 1)
    ensures RowsResolve(t')
  {
  }

  lemma NewRoleKeepsGrants(t: Tables, id: RoleId, row: RoleRow, t': Tables)
    requires RowsResolve(t) && GrantsSound(t) && id !in t.roles && row.key.CustomKey?
    requires t' == t.(roles := t.roles[id := row], epoch := t.epoch + 1)
    ensures GrantsSound(t')
  {
    SameGrantRows(t, t');
  }

  /** A custom role may change in any way that keeps its shape and key, lose bindings, and take safe grants. */
  ghost predicate CustomRoleChange(t: Tables, id: RoleId, t': Tables) {
    && id in t.roles && !t.roles[id].isSystem
    && t'.roles.Keys == t.roles.Keys && (forall r :: r in t.roles && r != id ==> t'.roles[r] == t.roles[r])
    && RoleShape(t'.roles[id]) && !t'.roles[id].isSystem && !t'.roles[id].isSuperAdmin
    && t'.roles[id].key == t.roles[id].key
    && (forall b :: b in t'.bindings ==> b in t.bindings)
    && (forall b :: b in t.bindings && b.1 != id ==> b in t'.bindings)
    && (forall r: RoleId, p: Permission :: r != id ==> ((r, p) in t'.grants <==> (r, p) in t.grants))
    && (forall p :: (id, p) in t'.grants ==> p in SUPER_ADMIN_PERMISSIONS && p != RegistrationConfigure)
    && (t'.roles[id].deleted ==> (forall u :: (u, id) !in t'.bindings) && (forall p :: (id, p) !in t'.grants))
    && t'.users.Keys == t.users.Keys && (forall u :: u in t.users ==> t'.users[u].deleted == t.users[u].deleted)
    && t'.catalog == t.catalog
  }

  lemma CustomRoleKeepsInv(t: Tables, id: RoleId, t': Tables)
    requires Inv(t) && CustomRoleChange(t, id, t')
    ensures Preserved(t, t')
  {
    hide CustomRoleChange, RolesWellShaped, RowsResolve, GrantsSound, Bounded, OneSuperAdmin, HoldsSuper;
    CustomRoleKeepsRows(t, id, t');
    CustomRoleKeepsGrants(t, id, t');
    CustomRoleKeepsBounded(t, id, t');
    CustomRoleKeepsSuper(t, id, t');
    CustomRoleKeepsSystem(t, id, t');
  }

  lemma CustomRoleKeepsBounded(t: Tables, id: RoleId, t': Tables)
    requires RolesWellShaped(t) && Bounded(t) && CustomRoleChange(t, id, t')
    ensures Bounded(t')
  {
    LimitKept(t, t');
    BaseKept(t, t');
  }

  lemma CustomRoleKeepsSuper(t: Tables, id: RoleId, t': Tables)
    requires RolesWellShaped(t) && RolesWellShaped(t') && RowsResolve(t) && RowsResolve(t') && CustomRoleChange(t, id, t')
    ensures forall u :: HoldsSuper(t', u) <==> HoldsSuper(t, u)
    ensures OneSuperAdmin(t) ==> OneSuperAdmin(t')
  {
    SuperKept(t, t');
  }

  lemma CustomRoleKeepsSystem(t: Tables, id: RoleId, t': Tables)
    requires CustomRoleChange(t, id, t')
    ensures forall r :: r in t.roles && t.roles[r].isSystem ==>
              r in t'.roles && t'.roles[r] == t.roles[r] && t'.PermissionsOf(r) == t.PermissionsOf(r)
    ensures forall r :: r in t'.roles && t'.roles[r].isSystem ==> r in t.roles && t.roles[r].isSystem
    ensures forall u :: u in t.users ==> u in t'.users && t'.Live(u) == t.Live(u)
    ensures t'.catalog == t.catalog
  {
    forall r | r in t.roles && r != id ensures t'.PermissionsOf(r) == t.PermissionsOf(r) {
      assert forall p :: p in t'.PermissionsOf(r) <==> p in t.PermissionsOf(r);
    }
  }

  ghost predicate ShapedCustom(t: Tables, id: RoleId) {
    && t.Counts(id, true) && !t.roles[id].isSystem && !t.roles[id].isSuperAdmin && RoleShape(t.roles[id])
    && forall p :: (id, p) in t.grants ==> p in SUPER_ADMIN_PERMISSIONS && p != RegistrationConfigure
  }

  lemma CustomIsShaped(t: Tables, id: RoleId)
    requires Inv(t) && t.Counts(id, true) && !t.roles[id].isSystem
    ensures ShapedCustom(t, id)
  {
    assert RoleShape(t.roles[id]);
    hide Bounded, OneSuperAdmin;
  }

  lemma CustomRoleKeepsRows(t: Tables, id: RoleId, t': Tables)
    requires RolesWellShaped(t) && RowsResolve(t) && CustomRoleChange(t, id, t')
    ensures RolesWellShaped(t') && RowsResolve(t')
    ensures forall u :: t'.Live(u) == t.Live(u)
  {
  }

  lemma CustomRoleKeepsGrants(t: Tables, id: RoleId, t': Tables)
    requires RolesWellShaped(t) && RowsResolve(t) && GrantsSound(t) && CustomRoleChange(t, id, t')
    ensures GrantsSound(t')
    ensures forall r :: r in t.roles && r != id ==> t'.PermissionsOf(r) == t.PermissionsOf(r)
  {
    forall r: RoleId | r != id ensures t'.PermissionsOf(r) == t.PermissionsOf(r) {
      assert forall p :: p in t'.PermissionsOf(r) <==> p in t.PermissionsOf(r);
    }
  }

  lemma NewUserKeepsInv(t: Tables, id: UserId, name: string, base: RoleId, t': Tables)
    requires Inv(t) && id !in t.users
    requires base in t.roles && t.roles[base].key == UserKey && !t.roles[base].isSuperAdmin && !t.roles[base].deleted
    requires t' == WithNewUser(t, id, name, base)
    ensures Preserved(t, t')
  {
    assert RolesWellShaped(t') && RowsResolve(t');
    assert GrantsSound(t') by {
      SameGrantRows(t, t');
    }
    assert Bounded(t') by {
      NewUserKeepsBounded(t, id, name, base, t');
    }
    SuperKept(t, t');
    SameGrantRows(t, t');
  }

  lemma NewUserKeepsBounded(t: Tables, id: UserId, name: string, base: RoleId, t': Tables)
    requires RowsResolve(t) && Bounded(t) && id !in t.users
    requires base in t.roles && t.roles[base].key == UserKey
    requires t' == WithNewUser(t, id, name, base)
    ensures Bounded(t')
  {
    BaseKept(t, t');
    assert (id, base) in t'.bindings;
    forall u: UserId ensures |t'.RolesOf(u)| <= MAX_ROLES_PER_USER {
      if u == id {
        NewUserHoldsBaseOnly(t, id, name, base, t');
      } else {
        SmallerSet(t'.RolesOf(u), t.RolesOf(u));
      }
    }
  }

  lemma NewUserHoldsBaseOnly(t: Tables, id: UserId, name: string, base: RoleId, t': Tables)
    requires RowsResolve(t) && id !in t.users
    requires t' == WithNewUser(t, id, name, base)
    ensures t'.RolesOf(id) == {base}
  {
    assert forall r :: (id, r) !in t.bindings;
  }
}
