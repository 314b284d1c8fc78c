/**
 What each committed request leaves in the tables, row by row: the rows it
 names with their new columns, and every other row as it was.
 */
module AccessDelivery {
  import opened Wrappers
  import opened Domain
  import opened Policy
  import opened AccessTables
  import opened AccessInvariant
  import opened AccessEffects

  /** Nothing but one user's row and the epoch differs. */
  ghost predicate OnlyUser(t: Tables, target: UserId, row: UserRow, epoch: nat, t': Tables) {
    t' == Tables(t.users[target := row], t.roles, t.bindings, t.grants, epoch, t.registrationOpen, t.catalog)
  }

  /** A committed session revocation raises the target's token version by one and changes nothing else. */
  lemma RevocationDelivered(t: Tables, ctx: Context, target: UserId, t': Tables)
    requires Apply(t, RevokeUserSessionsRequest(ctx, target)) == Ok(t')
    ensures t.Live(target)
    ensures var row := t.users[target];
            OnlyUser(t, target, UserRow(row.name, row.active, false, row.isProtected, row.tokenVersion + 1, row.authzVersion),
                     t.epoch, t')
  {
    hide LockedActor, DecideUserAdministration, UserVisible, Tables.Snapshot;
  }

  /** So does the transaction that commits an administrative password reset. */
  lemma ResetDelivered(t: Tables, ctx: Context, target: UserId, t': Tables)
    requires Apply(t, ResetUserPasswordRequest(ctx, target)) == Ok(t')
    ensures t.Live(target)
    ensures var row := t.users[target];
            OnlyUser(t, target, UserRow(row.name, row.active, false, row.isProtected, row.tokenVersion + 1, row.authzVersion),
                     t.epoch, t')
  {
    hide CurrentActor, DecideUserAdministration, UserVisible, Tables.Snapshot;
  }

  /** A committed status change stores the requested flag and raises both versions, unless the flag was that already. */
  lemma StatusDelivered(t: Tables, ctx: Context, target: UserId, active: bool, t': Tables)
    requires Apply(t, UpdateUserStatusRequest(ctx, target, active)) == Ok(t')
    ensures t.Live(target)
    ensures var row := t.users[target];
            if row.active == active then t' == t
            else OnlyUser(t, target, UserRow(row.name, active, false, row.isProtected, row.tokenVersion + 1, row.authzVersion + 1),
                          t.epoch + 1, t')
  {
    hide LockedActor, DecideUserAdministration, UserVisible, Tables.Snapshot;
  }

  // ----- bindings -----

  /** The target holds all the listed roles, or none of them; every other binding is as before. */
  ghost predicate BindingsBecome(t: Tables, operation: RoleOperation, target: UserId, ids: set<RoleId>, t': Tables) {
    forall u: UserId, r: RoleId ::
      (u, r) in t'.bindings <==> if u == target && r in ids then operation == Bind else (u, r) in t.bindings
  }

  ghost predicate BindingStamped(t: Tables, target: UserId, t': Tables)
    requires target in t.users
  {
    if t'.bindings == t.bindings then t' == t
    else var row := t.users[target];
         OnlyUser(t.(bindings := t'.bindings), target,
                  UserRow(row.name, row.active, row.deleted, row.isProtected, row.tokenVersion, row.authzVersion + 1), t.epoch + 1, t')
  }

  /** A committed binding change stores exactly that, and steps the target's authority version and the epoch if anything changed. */
  lemma BindingDelivered(t: Tables, ctx: Context, target: UserId, ids: set<RoleId>, operation: RoleOperation, t': Tables)
    requires Apply(t, ChangeUserRolesRequest(ctx, target, ids, operation)) == Ok(t')
    ensures target in t.users && BindingsBecome(t, operation, target, ids, t') && BindingStamped(t, target, t')
  {
    hide ActorAndTarget, ChangeListedRoles, WithRolesChanged, BindingsBecome, BindingStamped;
    BindingCommit(t, ctx, target, ids, operation, t');
    hide ChangeUserRoles;
    BindingRows(t, operation, target, ids);
    BindingStamps(t, operation, target, ids);
  }

  lemma BindingRows(t: Tables, operation: RoleOperation, target: UserId, ids: set<RoleId>)
    requires target in t.users
    ensures BindingsBecome(t, operation, target, ids, AfterBinding(t, operation, target, ids))
  {
    var t', changed := AfterBinding(t, operation, target, ids), ChangedIds(t, operation, target, ids);
    forall u: UserId, r: RoleId
      ensures (u, r) in t'.bindings <==> if u == target && r in ids then operation == Bind else (u, r) in t.bindings
    {
      assert r in t.RolesOf(target) <==> (target, r) in t.bindings;
      assert r in changed <==> r in ids && (operation == Bind <==> (target, r) !in t.bindings);
      assert (u, r) in Pairs(target, changed) <==> u == target && r in changed;
      assert r in changed ==> changed != {};
    }
  }

  lemma BindingStamps(t: Tables, operation: RoleOperation, target: UserId, ids: set<RoleId>)
    requires target in t.users
    ensures BindingStamped(t, target, AfterBinding(t, operation, target, ids))
  {
    var changed := ChangedIds(t, operation, target, ids);
    if changed != {} {
      var r :| r in changed;
      assert (target, r) in t.bindings <==> r in t.RolesOf(target);
      assert (target, r) in AfterBinding(t, operation, target, ids).bindings <==> (target, r) !in t.bindings;
    }
  }

  // ----- roles -----

  /** The tier, key and texts a new role is asked for are the ones it gets; it is active, custom, unheld and at version zero. */
  lemma CreationDelivered(t: Tables, ctx: Context, id: RoleId, key: RoleKey, name: string, description: string, tier: int,
                          t': Tables)
    requires Apply(t, CreateRoleRequest(ctx, id, key, name, description, tier)) == Ok(t')
    ensures id !in t.roles && 1 <= tier < 1000
    ensures t' == Tables(t.users, t.roles[id := RoleRow(key, name, description, tier, true, false, false, false, false, 0)],
                         t.bindings, t.grants, t.epoch + 1, t.registrationOpen, t.catalog)
  {
    hide LockedActor;
  }

  /** A role is created exactly for a current actor above its tier, under a fresh id and a fresh key that is not reserved. */
  lemma RoleCreationExact(t: Tables, ctx: Context, id: RoleId, key: RoleKey, name: string, description: string, tier: int)
    ensures CreateRole(t, ctx, id, key, name, description, tier).Ok? <==>
            && CurrentWith(t, ctx, RolesCreate) && 1 <= tier <= 999 && tier < t.Effective(ctx.userId).tier
            && key != SuperAdminKey && key != AdminKey && key != UserKey
            && id !in t.roles && forall r :: r in t.roles ==> t.roles[r].key != key
  {
    if t.Live(ctx.userId) {
      EffectiveFacts(t, ctx.userId);
    }
    hide Tables.Snapshot;
  }

  /** The row that a shared change of role `id` leaves: one version step up. */
  ghost predicate RoleBecomes(t: Tables, id: RoleId, name: string, description: string, active: bool, deleted: bool, t': Tables)
    requires id in t.roles
  {
    var row := t.roles[id];
    t'.roles == t.roles[id := RoleRow(row.key, name, description, row.tier, active, deleted, row.isSystem, row.isProtected,
                                      row.isSuperAdmin, row.version + 1)]
  }

  /** Every live holder's authority version goes up by one; no other user row changes. */
  ghost predicate HoldersBumped(t: Tables, id: RoleId, t': Tables) {
    && t'.users.Keys == t.users.Keys
    && forall u :: u in t.users ==>
         var row := t.users[u];
         t'.users[u] == UserRow(row.name, row.active, row.deleted, row.isProtected, row.tokenVersion,
                                row.authzVersion + if (u, id) in t.bindings && !row.deleted then 1 else 0)
  }

  lemma BumpRows(t: Tables, id: RoleId, users: map<UserId, UserRow>)
    requires users == Bumped(t.users, t.HoldersOf(id))
    ensures HoldersBumped(t, id, t.(users := users))
  {
  }

  /** Renaming stores the given name and description and keeps what was not given. */
  lemma RenamingDelivered(t: Tables, ctx: Context, id: RoleId, name: Option<string>, description: Option<string>, expected: nat,
                          t': Tables)
    requires Apply(t, UpdateRoleRequest(ctx, id, name, description, expected)) == Ok(t')
    ensures id in t.roles
    ensures var row := t.roles[id];
            var newName := if name.Some? then name.value else row.name;
            var newDescription := if description.Some? then description.value else row.description;
            if newName == row.name && newDescription == row.description then t' == t
            else && RoleBecomes(t, id, newName, newDescription, row.active, row.deleted, t')
                 && t' == Tables(t.users, t'.roles, t.bindings, t.grants, t.epoch + 1, t.registrationOpen, t.catalog)
  {
    hide Administer, LockedActor, RoleVisible, Tables.HoldersOf, Tables.GrantOf;
  }

  /** The row `id` and its live holders are stepped, and nothing else differs but the grants. */
  ghost predicate Stepped(t: Tables, id: RoleId, active: bool, t': Tables)
    requires id in t.roles
  {
    && RoleBecomes(t, id, t.roles[id].name, t.roles[id].description, active, t.roles[id].deleted, t') && HoldersBumped(t, id, t')
    && t' == Tables(t'.users, t'.roles, t.bindings, t'.grants, t.epoch + 1, t.registrationOpen, t.catalog)
  }

  /** Switching a role stores the requested flag and steps its version, its holders' and the epoch. */
  lemma SwitchDelivered(t: Tables, ctx: Context, id: RoleId, active: bool, expected: nat, t': Tables)
    requires Apply(t, SetRoleActiveRequest(ctx, id, active, expected)) == Ok(t')
    ensures id in t.roles
    ensures if t.roles[id].active == active then t' == t else Stepped(t, id, active, t') && t'.grants == t.grants
  {
    hide SetRoleActive, WithRoleActive, Stepped;
    ActiveCommit(t, ctx, id, active, expected, t');
    SwitchSteps(t, id, active);
  }

  lemma SwitchSteps(t: Tables, id: RoleId, active: bool)
    requires id in t.roles
    ensures var t' := WithRoleActive(t, id, active);
            if t.roles[id].active == active then t' == t else Stepped(t, id, active, t') && t'.grants == t.grants
  {
    hide Bumped, Tables.HoldersOf;
    BumpRows(t, id, Bumped(t.users, t.HoldersOf(id)));
  }

  /** Deleting a role retires its row, removes exactly its bindings and grants, and steps the same versions. */
  lemma RetirementDelivered(t: Tables, ctx: Context, id: RoleId, expected: nat, t': Tables)
    requires Apply(t, SoftDeleteRoleRequest(ctx, id, expected)) == Ok(t')
    ensures id in t.roles
    ensures RoleBecomes(t, id, t.roles[id].name, t.roles[id].description, false, true, t') && HoldersBumped(t, id, t')
    ensures forall u: UserId, r: RoleId :: (u, r) in t'.bindings <==> (u, r) in t.bindings && r != id
    ensures forall r: RoleId, p: Permission :: (r, p) in t'.grants <==> (r, p) in t.grants && r != id
    ensures t' == Tables(t'.users, t'.roles, t'.bindings, t'.grants, t.epoch + 1, t.registrationOpen, t.catalog)
  {
    hide SoftDeleteRole, Bumped, Tables.HoldersOf;
    DeletionCommit(t, ctx, id, expected, t');
    BumpRows(t, id, Bumped(t.users, t.HoldersOf(id)));
  }

  /** Besides the role's grants, a change of its permissions steps the same versions and touches nothing. */
  lemma PermissionVersionsDelivered(t: Tables, ctx: Context, id: RoleId, requested: set<PermissionId>, operation: RoleOperation,
                                    expected: nat, t': Tables)
    requires Apply(t, ChangeRolePermissionsRequest(ctx, id, requested, operation, expected)) == Ok(t')
    ensures id in t.roles
    ensures if t'.PermissionsOf(id) == t.PermissionsOf(id) then t' == t else Stepped(t, id, t.roles[id].active, t')
  {
    hide ChangeRolePermissions, WithPermissions, Stepped, Tables.PermissionsOf;
    var after := PermissionsCommit(t, ctx, id, requested, operation, expected, t');
    PermissionsStep(t, id, after);
  }

  lemma PermissionsCommit(t: Tables, ctx: Context, id: RoleId, requested: set<PermissionId>, operation: RoleOperation,
                          expected: nat, t': Tables) returns (after: set<Permission>)
    requires ChangeRolePermissions(t, ctx, id, requested, operation, expected) == Ok(t')
    ensures id in t.roles && t' == WithPermissions(t, id, after)
  {
    hide AdministerPermissions, LockedActor, RoleVisible, Tables.GrantOf, Tables.HoldersOf, PermissionsAfter, WithPermissions;
    var required := if operation == Bind then RolesPermissionsBind else RolesPermissionsUnbind;
    after := PermissionsAfter(operation, LockSharedRole(t, ctx, id, required, false).value.before.permissions,
                              set p | p in requested :: t.catalog[p]);
  }

  lemma PermissionsStep(t: Tables, id: RoleId, keys: set<Permission>)
    requires id in t.roles
    ensures var t' := WithPermissions(t, id, keys);
            if t'.PermissionsOf(id) == t.PermissionsOf(id) then t' == t else Stepped(t, id, t.roles[id].active, t')
  {
    PermissionsStored(t, id, keys);
    hide Bumped, Tables.HoldersOf, Tables.PermissionsOf, GrantRows;
    BumpRows(t, id, Bumped(t.users, t.HoldersOf(id)));
  }

  lemma PermissionsStored(t: Tables, id: RoleId, keys: set<Permission>)
    requires id in t.roles
    ensures WithPermissions(t, id, keys).PermissionsOf(id) == keys
  {
  }

  // ----- new users and the switch -----

  ghost predicate UserAdded(t: Tables, id: UserId, name: string, t': Tables) {
    exists base :: base in t.roles && t.roles[base].key == UserKey
                   && t' == Tables(t.users[id := UserRow(name, true, false, false, 0, 1)], t.roles, t.bindings + {(id, base)},
                                   t.grants, t.epoch + 1, t.registrationOpen, t.catalog)
  }

  lemma ProvisionDelivered(t: Tables, id: UserId, name: string)
    requires Provision(t, id, name).Ok?
    ensures UserAdded(t, id, name, Provision(t, id, name).value)
  {
  }

  /** Registering and creating a user add one active row of that name, bound to the base role alone. */
  lemma NewUserDelivered(t: Tables, request: Request, t': Tables)
    requires request.RegisterRequest? || request.CreateUserRequest?
    requires Apply(t, request) == Ok(t')
    ensures request.id !in t.users && UserAdded(t, request.id, request.name, t')
  {
    hide CurrentActor, UserAdded;
    ProvisionDelivered(t, request.id, request.name);
  }

  /** Registration succeeds exactly while it is open, creation exactly for a permitted actor, both only for a fresh id and name. */
  lemma NewUserExact(t: Tables, ctx: Context, id: UserId, name: string)
    requires Inv(t) && exists base :: base in t.roles && t.roles[base].key == UserKey
    ensures var isNew := id !in t.users && forall u :: u in t.users ==> t.users[u].name != name;
            && (Register(t, id, name).Ok? <==> t.registrationOpen && isNew)
            && (CreateUser(t, ctx, id, name).Ok? <==> CurrentWith(t, ctx, UsersCreate) && isNew)
  {
    hide RowsResolve, GrantsSound, Bounded, OneSuperAdmin, Tables.Snapshot;
    var base := RoleWithKey(t, UserKey).value;
    assert RoleShape(t.roles[base]);
  }

  /** The registration switch takes the requested position, for a super administrator with the permission only. */
  lemma SwitchingRegistration(t: Tables, ctx: Context, open: bool)
    ensures Apply(t, SetRegistrationRequest(ctx, open)).Ok? <==>
            CurrentWith(t, ctx, RegistrationConfigure) && t.Effective(ctx.userId).isSuperAdmin
    ensures Apply(t, SetRegistrationRequest(ctx, open)).Ok? ==>
              Apply(t, SetRegistrationRequest(ctx, open)).value
              == Tables(t.users, t.roles, t.bindings, t.grants, t.epoch, open, t.catalog)
  {
    hide Tables.Snapshot;
  }

  // ----- what authority means in the tables -----

  /** The role is bound to the user and counts: live, and active unless disabled roles are included. */
  ghost predicate HeldRole(t: Tables, u: UserId, r: RoleId, includeDisabled: bool) {
    (u, r) in t.bindings && r in t.roles && !t.roles[r].deleted && (includeDisabled || t.roles[r].active)
  }

  /** A user's authority read off the rows: the roles that count, their permissions together, their highest tier and flags. */
  lemma AuthorityMeans(t: Tables, u: UserId, includeDisabled: bool)
    requires u in t.users
    ensures var snapshot, row := t.Snapshot(u, includeDisabled), t.users[u];
            && snapshot.userId == u && snapshot.active == row.active && snapshot.userProtected == row.isProtected
            && snapshot.tokenVersion == row.tokenVersion && snapshot.authzVersion == row.authzVersion
            && (forall r :: r in snapshot.roles <==> HeldRole(t, u, r, includeDisabled))
            && (forall p :: p in snapshot.permissions <==> exists r: RoleId :: HeldRole(t, u, r, includeDisabled) && (r, p) in t.grants)
            && (forall r :: HeldRole(t, u, r, includeDisabled) ==> t.roles[r].tier <= snapshot.tier)
            && (snapshot.tier == 0 || exists r :: HeldRole(t, u, r, includeDisabled) && t.roles[r].tier == snapshot.tier)
            && (snapshot.isProtected <==> row.isProtected || exists r :: HeldRole(t, u, r, includeDisabled) && t.roles[r].isProtected)
            && (snapshot.isSuperAdmin <==> exists r :: HeldRole(t, u, r, includeDisabled) && t.roles[r].isSuperAdmin)
  {
    var grants := t.GrantsOf(u, includeDisabled);
    forall r ensures r in grants <==> HeldRole(t, u, r, includeDisabled) {
    }
    forall r | r in grants ensures grants[r] == t.GrantOf(r) {
    }
    forall p
      ensures p in t.Snapshot(u, includeDisabled).permissions <==>
              exists r: RoleId :: HeldRole(t, u, r, includeDisabled) && (r, p) in t.grants
    {
      if r :| HeldRole(t, u, r, includeDisabled) && (r, p) in t.grants {
        assert r in grants && p in grants[r].permissions;
      }
    }
    hide Tables.GrantsOf, HeldRole, Highest;
  }

  // ----- refusals a caller tells apart -----

  /** The row that the sender's context names: gone, no longer usable, or current. */
  lemma SenderRefusals(t: Tables, ctx: Context)
    ensures var usable := t.Live(ctx.userId) && t.users[ctx.userId].active && t.users[ctx.userId].tokenVersion == ctx.tokenVersion;
            && (LockedActor(t, ctx) == Err(ActorMissing) <==> !t.Live(ctx.userId))
            && (LockedActor(t, ctx) == Err(ActorNoLongerActive) <==> t.Live(ctx.userId) && !usable)
            && (CurrentActor(t, ctx) == Err(ActorNoLongerActive) <==> !usable)
            && (usable ==> LockedActor(t, ctx) == CurrentActor(t, ctx) == Ok(t.Effective(ctx.userId)))
  {
    hide Tables.Snapshot;
  }

  /** A target the sender may not see is refused like one that is not there, and only after the sender's own permission. */
  lemma TargetRefusals(t: Tables, ctx: Context, target: UserId, required: Permission)
    requires LockedActor(t, ctx).Ok?
    ensures var actor, answer := t.Effective(ctx.userId), ActorAndTarget(t, ctx, target, required);
            && (answer == Err(MissingOperationPermission) <==> required !in actor.permissions)
            && (answer == Err(TargetUserNotFound) <==>
                required in actor.permissions && !(t.Live(target) && UserVisible(actor, t.Effective(target))))
            && (answer.Ok? <==> required in actor.permissions && t.Live(target) && UserVisible(actor, t.Effective(target)))
  {
    SenderRefusals(t, ctx);
    hide Tables.Snapshot, UserVisible, LockedActor;
  }

  /** Registration tells a closed switch from a taken identity. */
  lemma RegistrationRefusals(t: Tables, id: UserId, name: string)
    ensures var taken := id in t.users || exists u :: u in t.users && t.users[u].name == name;
            && (Register(t, id, name) == Err(RegistrationClosed) <==> !t.registrationOpen)
            && (Register(t, id, name) == Err(UserIdentityExists) <==> t.registrationOpen && taken)
  {
  }

  /** A role edit is refused as stale exactly when it would commit under the role's present version and names another one. */
  lemma StaleExactly(t: Tables, ctx: Context, id: RoleId, name: Option<string>, description: Option<string>, active: bool,
                     expected: nat)
    requires id in t.roles
    ensures var version := t.roles[id].version;
            && (UpdateRole(t, ctx, id, name, description, expected) == Err(StaleRoleVersion) <==>
                expected != version && UpdateRole(t, ctx, id, name, description, version).Ok?)
            && (SetRoleActive(t, ctx, id, active, expected) == Err(StaleRoleVersion) <==>
                expected != version && SetRoleActive(t, ctx, id, active, version).Ok?)
            && (SoftDeleteRole(t, ctx, id, expected) == Err(StaleRoleVersion) <==>
                expected != version && SoftDeleteRole(t, ctx, id, version).Ok?)
  {
    NotStaleYet(t, ctx, id);
    hide LockSharedRole, Administer, WithRoleRenamed, WithRoleActive, WithoutRole;
  }

  lemma {:induction false} ScanNotStale(actor: AuthoritySnapshot, affected: seq<AuthoritySnapshot>)
    ensures AffectedManageable(actor, affected) != Deny(StaleRoleVersion)
  {
    if affected != [] {
      ScanNotStale(actor, affected[1..]);
    }
  }

  /** No check before the version test gives that reason. */
  lemma NotStaleYet(t: Tables, ctx: Context, id: RoleId)
    ensures forall required: Permission :: LockSharedRole(t, ctx, id, required, true) != Err(StaleRoleVersion)
    ensures forall locked: SharedRole, operation: Administration :: Administer(t, locked, operation) != Fail(StaleRoleVersion)
  {
    hide RoleVisible, Tables.Snapshot, Tables.GrantOf, Tables.HoldersOf;
    forall locked: SharedRole, operation: Administration ensures Administer(t, locked, operation) != Fail(StaleRoleVersion) {
      ScanNotStale(locked.actor, Affected(t, locked.before.roleId));
      hide AffectedManageable, Affected, WithinAuthority;
    }
  }
}
