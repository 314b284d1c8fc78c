/** Every committed request keeps the invariant and contains its effect below its author. */
module AccessSteps {
  import opened Wrappers
  import opened Domain
  import opened Policy
  import opened AccessTables
  import opened AccessFrame
  import opened AccessInvariant

  function Author(request: Request): Option<Context> {
    match request
    case RegisterRequest(_, _) => None
    case _ => Some(request.ctx)
  }

  /** Users who appear in the step start with no authority at all. */
  ghost predicate NewcomersPowerless(t: Tables, t': Tables) {
    forall u :: u in t'.users && u !in t.users ==>
      t'.Full(u).tier == 0 && t'.Full(u).permissions == {} && !t'.Full(u).isProtected && !t'.Full(u).isSuperAdmin
  }

  lemma NobodyNew(t: Tables, t': Tables)
    requires t'.users.Keys == t.users.Keys
    ensures NewcomersPowerless(t, t')
  {
  }

  // ----- single-user requests -----

  lemma UserStatusPreserves(t: Tables, target: UserId, active: bool, t': Tables)
    requires Inv(t) && target in t.users && t' == WithStatus(t, target, active)
    ensures Preserved(t, t') && t'.users.Keys == t.users.Keys
  {
    UserRowKeepsInv(t, t', target);
  }

  lemma SessionsRevokedPreserves(t: Tables, target: UserId, t': Tables)
    requires Inv(t) && target in t.users && t' == WithSessionsRevoked(t, target)
    ensures Preserved(t, t') && t'.users.Keys == t.users.Keys
  {
    UserRowKeepsInv(t, t', target);
  }

  lemma StatusChangeContained(t: Tables, actor: AuthoritySnapshot, target: UserId, active: bool, t': Tables)
    requires t.Live(target) && t' == WithStatus(t, target, active)
    requires DecideUserAdministration(actor, t.Full(target), UsersStatusUpdate).Allow?
    ensures Contained(actor, t, t')
  {
    hide Contained, DecideUserAdministration;
    assert t'.users == t.users[target := t'.users[target]];
    UserAdministrationContained(actor, t, t', target, UsersStatusUpdate);
  }

  lemma UserStatusContained(t: Tables, ctx: Context, target: UserId, active: bool, t': Tables)
    requires UpdateUserStatus(t, ctx, target, active) == Ok(t')
    ensures t.Live(ctx.userId) && Contained(t.Effective(ctx.userId), t, t')
  {
    hide Contained, DecideUserAdministration, WithStatus;
    StatusChangeContained(t, t.Effective(ctx.userId), target, active, t');
  }

  lemma RevokeSessionsContained(t: Tables, ctx: Context, target: UserId, t': Tables)
    requires RevokeUserSessions(t, ctx, target) == Ok(t')
    ensures t.Live(ctx.userId) && Contained(t.Effective(ctx.userId), t, t')
  {
    UserAdministrationContained(t.Effective(ctx.userId), t, t', target, UsersSessionsRevoke);
  }

  lemma ResetPasswordContained(t: Tables, ctx: Context, target: UserId, t': Tables)
    requires ResetUserPassword(t, ctx, target) == Ok(t')
    ensures t.Live(ctx.userId) && Contained(t.Effective(ctx.userId), t, t')
  {
    UserAdministrationContained(t.Effective(ctx.userId), t, t', target, UsersPasswordReset);
  }

  // ----- role bindings -----

  /** Every role an allowed change touches is live, unprotected, and not the base role of an unbind. */
  lemma ListedRolesFacts(t: Tables, actor: AuthoritySnapshot, target: UserId, ids: set<RoleId>, list: seq<RoleId>,
                         operation: RoleOperation, t': Tables)
    requires RolesWellShaped(t) && t.Live(target)
    requires forall r :: r in list ==> r in t.roles
    requires forall r :: r in list <==> r in ids
    requires ChangeListedRoles(t, actor, target, ids, list, operation) == Ok(t')
    ensures t' == WithRolesChanged(t, operation, target, ChangedIds(t, operation, target, ids))
    ensures forall r :: r in ids ==> r in t.roles && !t.roles[r].isSuperAdmin
    ensures operation == Unbind ==> forall r :: r in ids ==> t.roles[r].key != UserKey
    ensures var changed := ChangedIds(t, operation, target, ids);
            operation == Bind ==> changed == {} || |t.RolesOf(target)| + |changed| <= MAX_ROLES_PER_USER
  {
    ListedCommit(t, actor, target, ids, list, operation, t');
    hide ChangeListedRoles, ChangedRolesCheck, WithRolesChanged, ChangedIds;
    var grants := GrantList(t, list);
    ChangedRolesAllowed(operation, actor, grants);
    forall r | r in ids
      ensures !t.roles[r].isSuperAdmin
      ensures operation == Unbind ==> t.roles[r].key != UserKey
    {
      var i :| 0 <= i < |list| && list[i] == r;
      assert grants[i] == t.GrantOf(r);
      assert RoleShape(t.roles[r]);
    }
  }

  lemma ListedCommit(t: Tables, actor: AuthoritySnapshot, target: UserId, ids: set<RoleId>, list: seq<RoleId>,
                     operation: RoleOperation, t': Tables)
    requires t.Live(target) && forall r :: r in list ==> r in t.roles
    requires ChangeListedRoles(t, actor, target, ids, list, operation) == Ok(t')
    ensures t' == WithRolesChanged(t, operation, target, ChangedIds(t, operation, target, ids))
    ensures ChangedRolesCheck(operation, actor, GrantList(t, list)).Allow?
    ensures var changed := ChangedIds(t, operation, target, ids);
            operation == Bind ==> changed == {} || |t.RolesOf(target)| + |changed| <= MAX_ROLES_PER_USER
  {
    hide ChangedRolesCheck, WithRolesChanged, ChangedIds, GrantList, RoleVisible, Predicted, Tables.GrantsOf, Build;
  }

  lemma ListedRolesPreserve(t: Tables, actor: AuthoritySnapshot, target: UserId, ids: set<RoleId>, list: seq<RoleId>,
                            operation: RoleOperation, t': Tables)
    requires Inv(t) && t.Live(target)
    requires forall r :: r in ids ==> t.Counts(r, true)
    requires forall r :: r in list ==> r in t.roles
    requires forall r :: r in list <==> r in ids
    requires ChangeListedRoles(t, actor, target, ids, list, operation) == Ok(t')
    ensures Preserved(t, t')
  {
    assert RolesWellShaped(t);
    hide Inv, Preserved, RolesWellShaped, ChangeListedRoles;
    hide WithRolesChanged, GrantList;
    ListedRolesFacts(t, actor, target, ids, list, operation, t');
    var changed := ChangedIds(t, operation, target, ids);
    assert changed <= ids;
    hide ChangedIds;
    RolesChangedKeepsInv(t, operation, target, changed, t');
  }

  lemma UserRolesPreserve(t: Tables, ctx: Context, target: UserId, ids: set<RoleId>, operation: RoleOperation, t': Tables)
    requires Inv(t) && ChangeUserRoles(t, ctx, target, ids, operation) == Ok(t')
    ensures Preserved(t, t')
  {
    hide Inv, Preserved, ChangeListedRoles, Build, UserVisible;
    AscendingMembers(ids);
    ListedRolesPreserve(t, t.Effective(ctx.userId), target, ids, Ascending(ids), operation, t');
  }

  // ----- roles -----

  lemma CreateRolePreserves(t: Tables, ctx: Context, id: RoleId, key: RoleKey, name: string, description: string, tier: int,
                            t': Tables)
    requires Inv(t) && CreateRole(t, ctx, id, key, name, description, tier) == Ok(t')
    ensures Preserved(t, t') && t'.users == t.users
  {
    hide Inv, Preserved, LockedActor, Tables.GrantsOf;
    NewRoleKeepsInv(t, id, NewRole(key, name, description, tier), t');
  }

  lemma CreateRoleContained(t: Tables, ctx: Context, id: RoleId, key: RoleKey, name: string, description: string, tier: int,
                            t': Tables)
    requires RowsResolve(t) && CreateRole(t, ctx, id, key, name, description, tier) == Ok(t')
    ensures t.Live(ctx.userId) && Contained(t.Effective(ctx.userId), t, t')
  {
    NewRoleTouchesNobody(t, id, NewRole(key, name, description, tier), t');
  }

  lemma NewRoleTouchesNobody(t: Tables, id: RoleId, row: RoleRow, t': Tables)
    requires RowsResolve(t) && id !in t.roles
    requires t' == t.(roles := t.roles[id := row], epoch := t.epoch + 1)
    ensures forall u :: u in t.users ==> Untouched(t, t', u)
  {
    forall r | r in t.roles ensures t.GrantOf(r) == t'.GrantOf(r) {
      SameGrant(t, t', r);
    }
    forall u, d | u in t.users ensures t.GrantsOf(u, d) == t'.GrantsOf(u, d) && t.RolesOf(u) == t'.RolesOf(u) {
      SameGrants(t, t', u, d);
    }
  }

  lemma UpdateRolePreserves(t: Tables, ctx: Context, id: RoleId, name: Option<string>, description: Option<string>,
                            expected: nat, t': Tables)
    requires Inv(t) && UpdateRole(t, ctx, id, name, description, expected) == Ok(t')
    ensures Preserved(t, t') && t'.users == t.users
  {
    hide Inv, Preserved;
    var locked := LockSharedRole(t, ctx, id, RolesUpdate, true).value;
    LockGate(t, ctx, id, RolesUpdate, true, locked);
    AdministrationGate(t, locked, Update);
    RenamingPreserves(t, id, name, description, t');
  }

  lemma RenamingIsCustomChange(t: Tables, id: RoleId, name: Option<string>, description: Option<string>, t': Tables)
    requires ShapedCustom(t, id)
    requires t' == WithRoleRenamed(t, id, name, description)
    ensures CustomRoleChange(t, id, t') && t'.users == t.users
  {
  }

  lemma RenamingPreserves(t: Tables, id: RoleId, name: Option<string>, description: Option<string>, t': Tables)
    requires Inv(t) && t.Counts(id, true) && !t.roles[id].isSystem
    requires t' == WithRoleRenamed(t, id, name, description)
    ensures Preserved(t, t') && t'.users == t.users
  {
    hide Inv, Preserved, CustomRoleChange, ShapedCustom;
    CustomIsShaped(t, id);
    RenamingIsCustomChange(t, id, name, description, t');
    CustomRoleKeepsInv(t, id, t');
  }

  lemma SetRoleActivePreserves(t: Tables, ctx: Context, id: RoleId, active: bool, expected: nat, t': Tables)
    requires Inv(t) && SetRoleActive(t, ctx, id, active, expected) == Ok(t')
    ensures Preserved(t, t') && t'.users.Keys == t.users.Keys
  {
    hide Inv, Preserved;
    var locked := LockSharedRole(t, ctx, id, RolesStatusUpdate, true).value;
    LockGate(t, ctx, id, RolesStatusUpdate, true, locked);
    AdministrationGate(t, locked, if active then Enable else Disable);
    RoleActivePreserves(t, id, active, t');
  }

  lemma RoleActiveIsCustomChange(t: Tables, id: RoleId, active: bool, t': Tables)
    requires ShapedCustom(t, id)
    requires t' == WithRoleActive(t, id, active)
    ensures CustomRoleChange(t, id, t') && t'.users.Keys == t.users.Keys
  {
    RoleActiveChangesRow(t, id, active, t');
    hide WithRoleActive;
    RowOnlyIsCustomChange(t, id, t');
  }

  lemma RoleActiveChangesRow(t: Tables, id: RoleId, active: bool, t': Tables)
    requires id in t.roles && t' == WithRoleActive(t, id, active)
    ensures id in t'.roles && t'.roles == t.roles[id := t'.roles[id]]
    ensures t'.roles[id] == t.roles[id].(active := active, version := t'.roles[id].version)
    ensures t'.bindings == t.bindings && t'.grants == t.grants && t'.catalog == t.catalog
    ensures t'.users.Keys == t.users.Keys && forall u :: u in t.users ==> t'.users[u].deleted == t.users[u].deleted
  {
    if t.roles[id].active == active {
      assert t.roles == t.roles[id := t.roles[id]];
    }
  }

  lemma RowOnlyIsCustomChange(t: Tables, id: RoleId, t': Tables)
    requires ShapedCustom(t, id) && id in t'.roles && t'.roles == t.roles[id := t'.roles[id]]
    requires RoleShape(t'.roles[id]) && !t'.roles[id].isSystem && !t'.roles[id].isSuperAdmin && !t'.roles[id].deleted
    requires t'.roles[id].key == t.roles[id].key
    requires t'.bindings == t.bindings && t'.grants == t.grants && t'.catalog == t.catalog
    requires t'.users.Keys == t.users.Keys && forall u :: u in t.users ==> t'.users[u].deleted == t.users[u].deleted
    ensures CustomRoleChange(t, id, t')
  {
  }

  lemma RoleActivePreserves(t: Tables, id: RoleId, active: bool, t': Tables)
    requires Inv(t) && t.Counts(id, true) && !t.roles[id].isSystem
    requires t' == WithRoleActive(t, id, active)
    ensures Preserved(t, t') && t'.users.Keys == t.users.Keys
  {
    hide Inv, Preserved, CustomRoleChange, ShapedCustom;
    CustomIsShaped(t, id);
    RoleActiveIsCustomChange(t, id, active, t');
    CustomRoleKeepsInv(t, id, t');
  }

  lemma SoftDeleteRolePreserves(t: Tables, ctx: Context, id: RoleId, expected: nat, t': Tables)
    requires Inv(t) && SoftDeleteRole(t, ctx, id, expected) == Ok(t')
    ensures Preserved(t, t') && t'.users.Keys == t.users.Keys
  {
    hide Inv, Preserved;
    var locked := LockSharedRole(t, ctx, id, RolesDelete, true).value;
    LockGate(t, ctx, id, RolesDelete, true, locked);
    AdministrationGate(t, locked, Delete);
    DeletionPreserves(t, id, t');
  }

  lemma DeletionIsCustomChange(t: Tables, id: RoleId, t': Tables)
    requires ShapedCustom(t, id)
    requires t' == WithoutRole(t, id)
    ensures CustomRoleChange(t, id, t') && t'.users.Keys == t.users.Keys
  {
  }

  lemma DeletionPreserves(t: Tables, id: RoleId, t': Tables)
    requires Inv(t) && t.Counts(id, true) && !t.roles[id].isSystem
    requires t' == WithoutRole(t, id)
    ensures Preserved(t, t') && t'.users.Keys == t.users.Keys
  {
    hide Inv, Preserved, CustomRoleChange, ShapedCustom;
    CustomIsShaped(t, id);
    DeletionIsCustomChange(t, id, t');
    CustomRoleKeepsInv(t, id, t');
  }

  lemma RolePermissionsPreserve(t: Tables, ctx: Context, id: RoleId, requested: set<PermissionId>, operation: RoleOperation,
                                expected: nat, t': Tables)
    requires Inv(t) && ChangeRolePermissions(t, ctx, id, requested, operation, expected) == Ok(t')
    ensures Preserved(t, t') && t'.users.Keys == t.users.Keys
  {
    hide Inv, Preserved;
    var required := if operation == Bind then RolesPermissionsBind else RolesPermissionsUnbind;
    var locked := LockSharedRole(t, ctx, id, required, false).value;
    LockGate(t, ctx, id, required, false, locked);
    var keys := set p | p in requested :: t.catalog[p];
    var after := PermissionsAfter(operation, locked.before.permissions, keys);
    PermissionsGate(t, locked, operation, after);
    PermissionsPreserve(t, id, after, t');
  }

  lemma PermissionsIsCustomChange(t: Tables, id: RoleId, keys: set<Permission>, t': Tables)
    requires ShapedCustom(t, id)
    requires keys <= SUPER_ADMIN_PERMISSIONS && RegistrationConfigure !in keys
    requires t' == WithPermissions(t, id, keys)
    ensures CustomRoleChange(t, id, t') && t'.users.Keys == t.users.Keys
  {
  }

  lemma PermissionsPreserve(t: Tables, id: RoleId, keys: set<Permission>, t': Tables)
    requires Inv(t) && t.Counts(id, true) && !t.roles[id].isSystem
    requires keys <= SUPER_ADMIN_PERMISSIONS && RegistrationConfigure !in keys
    requires t' == WithPermissions(t, id, keys)
    ensures Preserved(t, t') && t'.users.Keys == t.users.Keys
  {
    hide Inv, Preserved, CustomRoleChange, ShapedCustom;
    CustomIsShaped(t, id);
    PermissionsIsCustomChange(t, id, keys, t');
    CustomRoleKeepsInv(t, id, t');
  }

  // ----- provisioning and registration -----

  lemma ProvisionPreserves(t: Tables, id: UserId, name: string, t': Tables)
    requires Inv(t) && Provision(t, id, name) == Ok(t')
    ensures Preserved(t, t')
  {
    var base := RoleWithKey(t, UserKey).value;
    NewUserKeepsInv(t, id, name, base, t');
  }

  lemma ProvisionTouchesNobody(t: Tables, id: UserId, name: string, t': Tables)
    requires Provision(t, id, name) == Ok(t')
    ensures forall u :: u in t.users ==> u in t'.users && Untouched(t, t', u)
  {
    forall r | r in t.roles ensures t.GrantOf(r) == t'.GrantOf(r) {
      SameGrant(t, t', r);
    }
    forall u, d | u in t.users ensures t.GrantsOf(u, d) == t'.GrantsOf(u, d) && t.RolesOf(u) == t'.RolesOf(u) {
      SameGrants(t, t', u, d);
    }
  }

  /** A provisioned user starts with the base role alone, hence with tier zero and no permission. */
  lemma ProvisionedPowerless(t: Tables, id: UserId, name: string, t': Tables)
    requires RowsResolve(t) && GrantsSound(t) && Provision(t, id, name) == Ok(t')
    ensures NewcomersPowerless(t, t')
  {
    var base := RoleWithKey(t, UserKey).value;
    assert t.PermissionsOf(base) == {};
    hide GrantsSound, RowsResolve;
    NewUserPowerless(t, id, name, base, t');
  }

  lemma NewUserPowerless(t: Tables, id: UserId, name: string, base: RoleId, t': Tables)
    requires RowsResolve(t) && id !in t.users && base in t.roles
    requires IsDefaultRole(t.roles[base]) && t.PermissionsOf(base) == {}
    requires t' == WithNewUser(t, id, name, base)
    ensures NewcomersPowerless(t, t')
  {
    NewUserHoldsBaseOnly(t, id, name, base, t');
    SameGrant(t, t', base);
    hide RowsResolve;
    assert t'.GrantsOf(id, true) == map[base := t.GrantOf(base)];
  }

  lemma SwitchPreserves(t: Tables, open: bool, t': Tables)
    requires Inv(t) && t' == t.(registrationOpen := open)
    ensures Preserved(t, t')
  {
    assert RolesWellShaped(t') && RowsResolve(t');
    SameGrantRows(t, t');
    assert GrantsSound(t');
    assert Bounded(t') by {
      LimitKept(t, t');
      BaseKept(t, t');
    }
    SuperKept(t, t');
  }

  lemma SwitchContained(t: Tables, actor: AuthoritySnapshot, open: bool, t': Tables)
    requires t' == t.(registrationOpen := open)
    ensures Contained(actor, t, t')
  {
    forall r | r in t.roles ensures t.GrantOf(r) == t'.GrantOf(r) {
      SameGrant(t, t', r);
    }
    forall u, d | u in t.users ensures t.GrantsOf(u, d) == t'.GrantsOf(u, d) && t.RolesOf(u) == t'.RolesOf(u) {
      SameGrants(t, t', u, d);
    }
  }

  // ----- the step theorems -----

  /** Every committed request leads to a state that satisfies the invariant again. */
  lemma StepPreserves(t: Tables, request: Request, t': Tables)
    requires Inv(t) && Apply(t, request) == Ok(t')
    ensures Preserved(t, t')
  {
    hide Inv, Preserved;
    match request
    case UpdateUserStatusRequest(ctx, target, active) => UserStatusPreserves(t, target, active, t');
    case RevokeUserSessionsRequest(ctx, target) => SessionsRevokedPreserves(t, target, t');
    case ResetUserPasswordRequest(ctx, target) => SessionsRevokedPreserves(t, target, t');
    case ChangeUserRolesRequest(ctx, target, ids, operation) => UserRolesPreserve(t, ctx, target, ids, operation, t');
    case CreateRoleRequest(ctx, id, key, name, description, tier) =>
      CreateRolePreserves(t, ctx, id, key, name, description, tier, t');
    case UpdateRoleRequest(ctx, id, name, description, expected) =>
      UpdateRolePreserves(t, ctx, id, name, description, expected, t');
    case SetRoleActiveRequest(ctx, id, active, expected) => SetRoleActivePreserves(t, ctx, id, active, expected, t');
    case SoftDeleteRoleRequest(ctx, id, expected) => SoftDeleteRolePreserves(t, ctx, id, expected, t');
    case ChangeRolePermissionsRequest(ctx, id, ids, operation, expected) =>
      RolePermissionsPreserve(t, ctx, id, ids, operation, expected, t');
    case CreateUserRequest(ctx, id, name) => ProvisionPreserves(t, id, name, t');
    case SetRegistrationRequest(ctx, open) => SwitchPreserves(t, open, t');
    case RegisterRequest(id, name) => ProvisionPreserves(t, id, name, t');
  }

  /** Users who appear in a step start with no authority. */
  lemma StepNewcomers(t: Tables, request: Request, t': Tables)
    requires RowsResolve(t) && GrantsSound(t) && Apply(t, request) == Ok(t')
    ensures NewcomersPowerless(t, t')
  {
    hide RowsResolve, GrantsSound, NewcomersPowerless, Provision;
    if request.CreateUserRequest? || request.RegisterRequest? {
      ProvisionedPowerless(t, request.id, request.name, t');
    } else {
      hide Apply;
      OnlyProvisioningAddsUsers(t, request, t');
      NobodyNew(t, t');
    }
  }

  lemma OnlyProvisioningAddsUsers(t: Tables, request: Request, t': Tables)
    requires Apply(t, request) == Ok(t')
    requires !request.CreateUserRequest? && !request.RegisterRequest?
    ensures t'.users.Keys == t.users.Keys
  {
    hide CurrentActor, LockedActor, Build, UserVisible, LockSharedRole, Administer, AdministerPermissions,
         DecideUserAdministration, DecideRoleChange, DecideRoleCreate, Predicted, ChangedIds;
    hide Tables.GrantsOf, Tables.Snapshot, Tables.RolesOf, RoleVisible, Requestable, Pairs, PermissionsAfter, GrantRows, Renamed;
  }

  /**
   Whoever a committed request changes is another, unprotected identity
   strictly below its author and inside the author's permissions, before the
   change and after it; everybody else keeps row, bindings and authority.
   */
  lemma StepContained(t: Tables, request: Request, t': Tables)
    requires RowsResolve(t) && Apply(t, request) == Ok(t')
    ensures Author(request).None? ==> forall u :: t.Live(u) ==> u in t'.users && Untouched(t, t', u)
    ensures Author(request).Some? ==>
              t.Live(Author(request).value.userId) && Contained(t.Effective(Author(request).value.userId), t, t')
  {
    match request
    case UpdateUserStatusRequest(ctx, target, active) => UserStatusContained(t, ctx, target, active, t');
    case RevokeUserSessionsRequest(ctx, target) => RevokeSessionsContained(t, ctx, target, t');
    case ResetUserPasswordRequest(ctx, target) => ResetPasswordContained(t, ctx, target, t');
    case ChangeUserRolesRequest(ctx, target, ids, operation) => ChangeUserRolesContained(t, ctx, target, ids, operation, t');
    case CreateRoleRequest(ctx, id, key, name, description, tier) =>
      CreateRoleContained(t, ctx, id, key, name, description, tier, t');
    case UpdateRoleRequest(ctx, id, name, description, expected) =>
      UpdateRoleContained(t, ctx, id, name, description, expected, t');
    case SetRoleActiveRequest(ctx, id, active, expected) => SetRoleActiveContained(t, ctx, id, active, expected, t');
    case SoftDeleteRoleRequest(ctx, id, expected) => SoftDeleteRoleContained(t, ctx, id, expected, t');
    case ChangeRolePermissionsRequest(ctx, id, ids, operation, expected) =>
      ChangeRolePermissionsContained(t, ctx, id, ids, operation, expected, t');
    case CreateUserRequest(ctx, id, name) => ProvisionTouchesNobody(t, id, name, t');
    case SetRegistrationRequest(ctx, open) => SwitchContained(t, t.Effective(ctx.userId), open, t');
    case RegisterRequest(id, name) => ProvisionTouchesNobody(t, id, name, t');
  }

  /** Nobody can change the row, bindings or authority of anyone who is not strictly below them, themselves included. */
  lemma OutOfReachUntouched(t: Tables, request: Request, t': Tables, u: UserId)
    requires Inv(t) && Apply(t, request) == Ok(t') && Author(request).Some? && t.Live(u)
    requires t.Live(Author(request).value.userId)
    requires !StrictlyBelow(t.Effective(Author(request).value.userId), t.Full(u))
    ensures u in t'.users && Untouched(t, t', u)
  {
    StepContained(t, request, t');
  }
}
