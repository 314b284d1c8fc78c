/**
 What the super administrator can always do: in every legal state nobody else
 is beyond their reach, so the policy lets them administer every other
 unprotected user and every custom role.
 */
module AccessSuperAdmin {
  import opened Wrappers
  import opened Domain
  import opened Policy
  import opened AccessTables
  import opened AccessFrame
  import opened AccessInvariant
  import opened AccessSteps
  import opened AccessEffects

  /** A current session of the super administrator. */
  ghost predicate SuperSession(t: Tables, ctx: Context) {
    && t.Live(ctx.userId) && t.users[ctx.userId].active && t.users[ctx.userId].tokenVersion == ctx.tokenVersion
    && HoldsSuper(t, ctx.userId)
  }

  ghost predicate Commands(actor: AuthoritySnapshot) {
    SUPER_ADMIN_PERMISSIONS <= actor.permissions && actor.tier >= 1000 && actor.isSuperAdmin && actor.active
  }

  lemma SuperCommands(t: Tables, op: UserId)
    requires RolesWellShaped(t) && RowsResolve(t) && GrantsSound(t) && t.Live(op) && t.users[op].active && HoldsSuper(t, op)
    ensures Commands(t.Effective(op)) && t.Effective(op).userId == op
  {
    var r :| (op, r) in t.bindings && r in t.roles && t.roles[r].isSuperAdmin;
    assert RoleShape(t.roles[r]);
    assert t.PermissionsOf(r) == SeededPermissions(t.roles[r].key);
    hide RolesWellShaped, RowsResolve, GrantsSound, RoleShape, HoldsSuper, Tables.PermissionsOf;
    assert r in t.GrantsOf(op, false) && t.GrantsOf(op, false)[r] == t.GrantOf(r);
    hide Tables.GrantsOf;
    assert t.Effective(op).roles == t.GrantsOf(op, false);
  }

  /** A role other than the super administrator's: unprotected, of lower tier, with control-plane permissions only. */
  ghost predicate OrdinaryGrant(role: RoleGrant) {
    !role.isProtected && !role.isSuperAdmin && role.tier < 1000 && role.permissions <= SUPER_ADMIN_PERMISSIONS
    && role.key != SuperAdminKey
  }

  lemma RoleIsOrdinary(t: Tables, r: RoleId)
    requires RolesWellShaped(t) && GrantsSound(t) && r in t.roles && !t.roles[r].isSuperAdmin
    ensures OrdinaryGrant(t.GrantOf(r))
  {
    assert RoleShape(t.roles[r]);
    assert forall p :: p in t.PermissionsOf(r) ==> (r, p) in t.grants;
  }

  lemma OrdinaryGrantsBelow(actor: AuthoritySnapshot, subject: AuthoritySnapshot)
    requires Commands(actor) && subject.userId != actor.userId && !subject.userProtected
    requires subject == subject.ReplaceRoles(subject.roles)
    requires forall r :: r in subject.roles ==> OrdinaryGrant(subject.roles[r])
    ensures StrictlyBelow(actor, subject)
  {
    forall p | p in subject.permissions ensures p in SUPER_ADMIN_PERMISSIONS {
      var r :| r in subject.roles && p in subject.roles[r].permissions;
    }
  }

  lemma OthersHoldOrdinary(t: Tables, op: UserId, u: UserId)
    requires Inv(t) && HoldsSuper(t, op) && u in t.users && u != op
    ensures forall r :: r in t.GrantsOf(u, true) ==> OrdinaryGrant(t.GrantsOf(u, true)[r])
  {
    forall r | r in t.GrantsOf(u, true) ensures OrdinaryGrant(t.GrantsOf(u, true)[r]) {
      assert (u, r) in t.bindings && t.roles[r].isSuperAdmin ==> HoldsSuper(t, u);
      RoleIsOrdinary(t, r);
    }
  }

  /** Every other user whose own row is unprotected is strictly below the super administrator. */
  lemma SuperOutranks(t: Tables, op: UserId, u: UserId)
    requires Inv(t) && t.Live(op) && t.users[op].active && HoldsSuper(t, op)
    requires u in t.users && u != op && !t.users[u].isProtected
    ensures StrictlyBelow(t.Effective(op), t.Full(u))
  {
    SuperCommands(t, op);
    OthersHoldOrdinary(t, op, u);
    hide Inv, HoldsSuper, Tables.GrantsOf, OrdinaryGrant, Commands, StrictlyBelow;
    assert t.Full(u).roles == t.GrantsOf(u, true) && t.Full(u).userId == u && t.Full(u).userProtected == t.users[u].isProtected;
    OrdinaryGrantsBelow(t.Effective(op), t.Full(u));
  }

  lemma SuperIsCurrent(t: Tables, ctx: Context, required: Permission)
    requires Inv(t) && SuperSession(t, ctx) && required in SUPER_ADMIN_PERMISSIONS
    ensures CurrentWith(t, ctx, required)
  {
    SuperCommands(t, ctx.userId);
  }

  /** Any other unprotected user can be disabled, enabled, logged out and given a new password. */
  lemma SuperAdministersUsers(t: Tables, ctx: Context, target: UserId, active: bool)
    requires Inv(t) && SuperSession(t, ctx) && t.Live(target) && target != ctx.userId && !t.users[target].isProtected
    ensures UpdateUserStatus(t, ctx, target, active).Ok? && RevokeUserSessions(t, ctx, target).Ok?
            && ResetUserPassword(t, ctx, target).Ok?
  {
    hide Inv, HoldsSuper, StrictlyBelow, CurrentWith, UpdateUserStatus, RevokeUserSessions, ResetUserPassword;
    SuperIsCurrent(t, ctx, UsersStatusUpdate);
    SuperIsCurrent(t, ctx, UsersSessionsRevoke);
    SuperIsCurrent(t, ctx, UsersPasswordReset);
    SuperOutranks(t, ctx.userId, target);
    StatusChangeExact(t, ctx, target, active);
    SessionRevocationExact(t, ctx, target);
    PasswordResetExact(t, ctx, target);
  }

  /** Live active roles other than the super administrator's can be bound to such a user, up to the limit. */
  lemma SuperBindsRoles(t: Tables, ctx: Context, target: UserId, ids: set<RoleId>)
    requires Inv(t) && SuperSession(t, ctx) && t.Live(target) && target != ctx.userId && !t.users[target].isProtected
    requires t.users[target].active && ids != {} && |t.RolesOf(target) + ids| <= MAX_ROLES_PER_USER
    requires forall r :: r in ids ==> t.Counts(r, false) && !t.roles[r].isSuperAdmin
    ensures ChangeUserRoles(t, ctx, target, ids, Bind).Ok?
  {
    assert RolesAssign in SUPER_ADMIN_PERMISSIONS;
    hide *;
    SuperIsCurrent(t, ctx, RolesAssign);
    SuperBindingSound(t, ctx, target, ids);
    RoleBindingExact(t, ctx, target, ids, Bind);
  }

  lemma SuperBindingSound(t: Tables, ctx: Context, target: UserId, ids: set<RoleId>)
    requires Inv(t) && SuperSession(t, ctx) && t.Live(target) && target != ctx.userId && !t.users[target].isProtected
    requires t.users[target].active && |t.RolesOf(target) + ids| <= MAX_ROLES_PER_USER
    requires forall r :: r in ids ==> t.Counts(r, false) && !t.roles[r].isSuperAdmin
    ensures BindingSound(t, t.Effective(ctx.userId), target, ids, Bind)
  {
    assert t.Live(ctx.userId) && t.users[ctx.userId].active && HoldsSuper(t, ctx.userId);
    hide *;
    RolesRequestable(t, target, ids);
    BoundRolesFit(t, target, ids);
    SuperAssigns(t, ctx, Bind, ids);
    SuperOutranks(t, ctx.userId, target);
    BoundTargetBelow(t, ctx, target, ids);
    BindingSoundParts(t, t.Effective(ctx.userId), target, ids, Bind);
  }

  lemma BoundRolesFit(t: Tables, target: UserId, ids: set<RoleId>)
    requires t.Live(target) && |t.RolesOf(target) + ids| <= MAX_ROLES_PER_USER
    ensures target in t.users
    ensures |WithRolesChanged(t, Bind, target, ChangedIds(t, Bind, target, ids)).RolesOf(target)| <= MAX_ROLES_PER_USER
  {
    RolesOfChanged(t, Bind, target, ids);
  }

  lemma RolesRequestable(t: Tables, target: UserId, ids: set<RoleId>)
    requires forall r :: r in ids ==> t.Counts(r, false)
    ensures forall r :: r in ids ==> r in t.roles && Requestable(t, Bind, target, r)
  {
  }

  lemma SuperAssigns(t: Tables, ctx: Context, operation: RoleOperation, ids: set<RoleId>)
    requires Inv(t) && SuperSession(t, ctx) && operation == Bind
    requires forall r :: r in ids ==> r in t.roles && !t.roles[r].isSuperAdmin
    ensures forall r :: r in ids ==> Assignable(t, t.Effective(ctx.userId), operation, r)
  {
    SuperCommands(t, ctx.userId);
    forall r | r in ids ensures Assignable(t, t.Effective(ctx.userId), operation, r) {
      RoleIsOrdinary(t, r);
    }
  }

  lemma BoundTargetBelow(t: Tables, ctx: Context, target: UserId, ids: set<RoleId>)
    requires Inv(t) && SuperSession(t, ctx) && t.Live(target) && target != ctx.userId && !t.users[target].isProtected
    requires |t.RolesOf(target) + ids| <= MAX_ROLES_PER_USER
    requires forall r :: r in ids ==> t.Counts(r, false) && !t.roles[r].isSuperAdmin
    ensures StrictlyBelow(t.Effective(ctx.userId), AfterBinding(t, Bind, target, ids).Full(target))
  {
    hide Inv, HoldsSuper, ChangedIds, Tables.RolesOf, WithRolesChanged, StrictlyBelow, Tables.Snapshot;
    RoomForChanged(t, target, ids);
    BoundUserBelow(t, ctx, target, ChangedIds(t, Bind, target, ids));
  }

  lemma BoundUserBelow(t: Tables, ctx: Context, target: UserId, changed: set<RoleId>)
    requires Inv(t) && SuperSession(t, ctx) && t.Live(target) && target != ctx.userId && !t.users[target].isProtected
    requires |t.RolesOf(target)| + |changed| <= MAX_ROLES_PER_USER
    requires forall r :: r in changed ==> r in t.roles && !t.roles[r].deleted && !t.roles[r].isSuperAdmin
    ensures var t' := WithRolesChanged(t, Bind, target, changed);
            target in t'.users && StrictlyBelow(t.Effective(ctx.userId), t'.Full(target))
  {
    var t' := WithRolesChanged(t, Bind, target, changed);
    BindingKeepsUsers(t, target, changed);
    assert target in t.users && ctx.userId in t.users && t.Live(ctx.userId);
    hide *;
    RolesChangedKeepsInv(t, Bind, target, changed, t');
    RolesChangedFrame(t, Bind, target, changed);
    OperatorStays(t, t', ctx);
    SuperOutranks(t', ctx.userId, target);
  }

  /** A transaction that does not touch the super administrator leaves the session and its authority. */
  lemma OperatorStays(t: Tables, t': Tables, ctx: Context)
    requires SuperSession(t, ctx) && Preserved(t, t') && ctx.userId in t'.users && Untouched(t, t', ctx.userId)
    ensures Inv(t') && t'.Live(ctx.userId) && t'.users[ctx.userId].active && HoldsSuper(t', ctx.userId)
    ensures t'.Effective(ctx.userId) == t.Effective(ctx.userId)
  {
    hide Inv, HoldsSuper, Tables.Snapshot;
  }

  lemma RoomForChanged(t: Tables, target: UserId, ids: set<RoleId>)
    requires |t.RolesOf(target) + ids| <= MAX_ROLES_PER_USER
    ensures var changed := ChangedIds(t, Bind, target, ids);
            changed <= ids && |t.RolesOf(target)| + |changed| <= MAX_ROLES_PER_USER
  {
    var held, changed := t.RolesOf(target), ChangedIds(t, Bind, target, ids);
    assert held + ids == held + changed;
  }

  lemma BindingKeepsUsers(t: Tables, target: UserId, changed: set<RoleId>)
    requires target in t.users
    ensures var t' := WithRolesChanged(t, Bind, target, changed);
            target in t'.users && t'.users.Keys == t.users.Keys && t'.Live(target) == t.Live(target)
            && t'.users[target].isProtected == t.users[target].isProtected
  {
  }

  /** Everyone who holds the role is another, unprotected user. */
  ghost predicate HeldByOthers(t: Tables, op: UserId, id: RoleId) {
    forall u :: u in t.HoldersOf(id) ==> u != op && !t.users[u].isProtected
  }

  lemma SuperTouchesRole(t: Tables, ctx: Context, id: RoleId, required: Permission, includeDisabled: bool)
    requires Inv(t) && SuperSession(t, ctx) && required in SUPER_ADMIN_PERMISSIONS
    requires t.Counts(id, includeDisabled) && !t.roles[id].isSystem
    ensures MayTouchRole(t, ctx, id, required, includeDisabled)
  {
    SuperIsCurrent(t, ctx, required);
    SuperCommands(t, ctx.userId);
    assert RoleShape(t.roles[id]);
    RoleIsOrdinary(t, id);
    hide Inv, HoldsSuper, CurrentWith;
  }

  /** Any custom role held by such users only can be renamed, switched and deleted under its present version. */
  lemma SuperAdministersRoles(t: Tables, ctx: Context, id: RoleId, name: Option<string>, description: Option<string>,
                              active: bool)
    requires Inv(t) && SuperSession(t, ctx) && t.Counts(id, true) && !t.roles[id].isSystem && HeldByOthers(t, ctx.userId, id)
    ensures UpdateRole(t, ctx, id, name, description, t.roles[id].version).Ok?
            && SetRoleActive(t, ctx, id, active, t.roles[id].version).Ok?
            && SoftDeleteRole(t, ctx, id, t.roles[id].version).Ok?
  {
    hide Inv, HoldsSuper, StrictlyBelow, MayTouchRole, UpdateRole, SetRoleActive, SoftDeleteRole;
    SuperTouchesRole(t, ctx, id, RolesUpdate, true);
    SuperTouchesRole(t, ctx, id, RolesStatusUpdate, true);
    SuperTouchesRole(t, ctx, id, RolesDelete, true);
    forall u | u in t.HoldersOf(id) ensures StrictlyBelow(t.Effective(ctx.userId), t.Full(u)) {
      SuperOutranks(t, ctx.userId, u);
    }
    RoleAdministrationExact(t, ctx, id, name, description, active, t.roles[id].version);
  }

  lemma HolderBelowAfter(t: Tables, ctx: Context, id: RoleId, after: set<Permission>, u: UserId)
    requires Inv(t) && SuperSession(t, ctx) && t.Counts(id, true) && !t.roles[id].isSystem && HeldByOthers(t, ctx.userId, id)
    requires after <= SUPER_ADMIN_PERMISSIONS && RegistrationConfigure !in after && u in t.HoldersOf(id)
    ensures u in WithPermissions(t, id, after).users
    ensures StrictlyBelow(t.Effective(ctx.userId), WithPermissions(t, id, after).Full(u))
  {
    var t' := WithPermissions(t, id, after);
    assert ctx.userId !in t.HoldersOf(id);
    BumpedKeepsRows(t.users, t.HoldersOf(id));
    assert u in t'.users && u != ctx.userId && !t'.users[u].isProtected;
    hide Inv, HoldsSuper, WithPermissions, StrictlyBelow;
    PermissionsPreserve(t, id, after, t');
    PermissionsFrame(t, id, after, t');
    OperatorStays(t, t', ctx);
    SuperOutranks(t', ctx.userId, u);
  }

  lemma BumpedKeepsRows(users: map<UserId, UserRow>, ids: set<UserId>)
    ensures Bumped(users, ids).Keys == users.Keys
    ensures forall u :: u in users ==> Bumped(users, ids)[u].isProtected == users[u].isProtected
  {
  }

  /** And its permissions can be changed to anything in the catalogue but the registration switch. */
  lemma SuperChangesPermissions(t: Tables, ctx: Context, id: RoleId, requested: set<PermissionId>, operation: RoleOperation)
    requires Inv(t) && SuperSession(t, ctx) && t.Counts(id, false) && !t.roles[id].isSystem && HeldByOthers(t, ctx.userId, id)
    requires requested != {} && requested <= t.catalog.Keys
    requires forall p :: p in requested ==> t.catalog[p] in SUPER_ADMIN_PERMISSIONS && t.catalog[p] != RegistrationConfigure
    ensures ChangeRolePermissions(t, ctx, id, requested, operation, t.roles[id].version).Ok?
  {
    var after := RequestedAfter(t, id, requested, operation);
    RequestedWithin(t, id, requested, operation);
    hide Inv, HoldsSuper, RequestedAfter, Tables.PermissionsOf;
    SuperTouchesRole(t, ctx, id, if operation == Bind then RolesPermissionsBind else RolesPermissionsUnbind, false);
    SuperHoldsAll(t, ctx, after);
    SuperPermissionsSound(t, ctx, id, after);
    hide *;
    RolePermissionsExact(t, ctx, id, requested, operation, t.roles[id].version);
  }

  lemma SuperPermissionsSound(t: Tables, ctx: Context, id: RoleId, after: set<Permission>)
    requires Inv(t) && SuperSession(t, ctx) && t.Counts(id, true) && !t.roles[id].isSystem && HeldByOthers(t, ctx.userId, id)
    requires after <= SUPER_ADMIN_PERMISSIONS && RegistrationConfigure !in after
    requires after <= t.Effective(ctx.userId).permissions
    ensures PermissionsSound(t, t.Effective(ctx.userId), id, after)
  {
    hide Inv, HoldsSuper, HeldByOthers, StrictlyBelow, WithPermissions, Tables.Snapshot, Tables.HoldersOf;
    forall u | u in t.HoldersOf(id)
      ensures u in WithPermissions(t, id, after).users
      ensures StrictlyBelow(t.Effective(ctx.userId), WithPermissions(t, id, after).Full(u))
    {
      HolderBelowAfter(t, ctx, id, after, u);
    }
  }

  lemma RequestedWithin(t: Tables, id: RoleId, requested: set<PermissionId>, operation: RoleOperation)
    requires RolesWellShaped(t) && GrantsSound(t) && id in t.roles && !t.roles[id].isSystem && requested <= t.catalog.Keys
    requires forall p :: p in requested ==> t.catalog[p] in SUPER_ADMIN_PERMISSIONS && t.catalog[p] != RegistrationConfigure
    ensures var after := RequestedAfter(t, id, requested, operation);
            after <= SUPER_ADMIN_PERMISSIONS && RegistrationConfigure !in after
  {
    assert RoleShape(t.roles[id]);
    assert forall p :: p in t.PermissionsOf(id) ==> (id, p) in t.grants;
  }

  lemma SuperHoldsAll(t: Tables, ctx: Context, keys: set<Permission>)
    requires Inv(t) && SuperSession(t, ctx) && keys <= SUPER_ADMIN_PERMISSIONS
    ensures keys <= t.Effective(ctx.userId).permissions
  {
    SuperCommands(t, ctx.userId);
  }
}
