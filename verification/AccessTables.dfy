/**
 The user, role, binding and grant tables, and every transaction on them as a
 function from tables to tables.  Each transaction first locks the single
 global state row, so transactions are atomic steps.  Only live binding and
 grant rows are kept; a tombstoned row is a removed one.
 */
module AccessTables {
  import opened Wrappers
  import opened Domain
  import opened Policy

  datatype UserRow = UserRow(
    name: string,
    active: bool,
    deleted: bool,
    isProtected: bool,
    tokenVersion: nat,
    authzVersion: nat
  )

  datatype RoleRow = RoleRow(
    key: RoleKey,
    name: string,
    description: string,
    tier: nat,
    active: bool,
    deleted: bool,
    isSystem: bool,
    isProtected: bool,
    isSuperAdmin: bool,
    version: nat
  )

  datatype Tables = Tables(
    users: map<UserId, UserRow>,
    roles: map<RoleId, RoleRow>,
    bindings: set<(UserId, RoleId)>,
    grants: set<(RoleId, Permission)>,
    epoch: nat,
    registrationOpen: bool,
    catalog: map<PermissionId, Permission>
  ) {
    predicate Live(u: UserId) {
      u in users && !users[u].deleted
    }

    function RolesOf(u: UserId): (ids: set<RoleId>)
      ensures forall r :: r in ids <==> (u, r) in bindings
    {
      set b | b in bindings && b.0 == u :: b.1
    }

    function PermissionsOf(r: RoleId): (keys: set<Permission>)
      ensures forall p :: p in keys <==> (r, p) in grants
    {
      set g | g in grants && g.0 == r :: g.1
    }

    /** The live users holding a role, whether or not the role is active. */
    function HoldersOf(r: RoleId): (ids: set<UserId>)
      ensures forall u :: u in ids <==> (u, r) in bindings && Live(u)
    {
      set b | b in bindings && b.1 == r && Live(b.0) :: b.0
    }

    predicate Counts(r: RoleId, includeDisabled: bool) {
      r in roles && !roles[r].deleted && (includeDisabled || roles[r].active)
    }

    function GrantOf(r: RoleId): RoleGrant
      requires r in roles
    {
      var row := roles[r];
      RoleGrant(r, row.key, row.tier, PermissionsOf(r), row.isSystem, row.isProtected, row.isSuperAdmin)
    }

    function GrantsOf(u: UserId, includeDisabled: bool): map<RoleId, RoleGrant> {
      map r | r in RolesOf(u) && Counts(r, includeDisabled) :: GrantOf(r)
    }

    /** Effective authority counts active roles only; full authority counts disabled ones as well. */
    function Snapshot(u: UserId, includeDisabled: bool): AuthoritySnapshot
      requires u in users
    {
      var row := users[u];
      Build(u, row.active, row.isProtected, row.tokenVersion, row.authzVersion, GrantsOf(u, includeDisabled))
    }

    function Effective(u: UserId): AuthoritySnapshot
      requires u in users
    {
      Snapshot(u, false)
    }

    function Full(u: UserId): AuthoritySnapshot
      requires u in users
    {
      Snapshot(u, true)
    }
  }

  datatype Context = Context(userId: UserId, tokenVersion: nat)

  type Change = Result<Tables, Reason>

  // ----- actors and targets -----

  function LockedActor(t: Tables, ctx: Context): Result<AuthoritySnapshot, Reason> {
    if !t.Live(ctx.userId) then Err(ActorMissing) else CurrentActor(t, ctx)
  }

  function CurrentActor(t: Tables, ctx: Context): Result<AuthoritySnapshot, Reason> {
    if !t.Live(ctx.userId) || !t.users[ctx.userId].active || t.users[ctx.userId].tokenVersion != ctx.tokenVersion then
      Err(ActorNoLongerActive)
    else
      Ok(t.Effective(ctx.userId))
  }

  function Permit(decision: Decision): Check<Reason> {
    match decision
    case Allow => Pass
    case Deny(reason) => Fail(reason)
  }

  /** The actor's effective and the target's full authority, once the target is visible to the actor. */
  function ActorAndTarget(t: Tables, ctx: Context, target: UserId, required: Permission)
    : Result<(AuthoritySnapshot, AuthoritySnapshot), Reason>
  {
    var actor :- LockedActor(t, ctx);
    :- Need(required in actor.permissions, MissingOperationPermission);
    :- Need(t.Live(target), TargetUserNotFound);
    :- Need(UserVisible(actor, t.Effective(target)), TargetUserNotFound);
    Ok((actor, t.Full(target)))
  }

  // ----- single-user transactions -----

  function WithStatus(t: Tables, target: UserId, active: bool): Tables
    requires target in t.users
  {
    var row := t.users[target];
    if row.active == active then t else
      t.(users := t.users[target := row.(active := active, tokenVersion := row.tokenVersion + 1,
                                         authzVersion := row.authzVersion + 1)],
         epoch := t.epoch + 1)
  }

  function UpdateUserStatus(t: Tables, ctx: Context, target: UserId, active: bool): Change {
    var (actor, before) :- ActorAndTarget(t, ctx, target, UsersStatusUpdate);
    :- Permit(DecideUserAdministration(actor, before, UsersStatusUpdate));
    Ok(WithStatus(t, target, active))
  }

  function WithSessionsRevoked(t: Tables, target: UserId): Tables
    requires target in t.users
  {
    t.(users := t.users[target := t.users[target].(tokenVersion := t.users[target].tokenVersion + 1)])
  }

  function RevokeUserSessions(t: Tables, ctx: Context, target: UserId): Change {
    var (actor, before) :- ActorAndTarget(t, ctx, target, UsersSessionsRevoke);
    :- Permit(DecideUserAdministration(actor, before, UsersSessionsRevoke));
    Ok(WithSessionsRevoked(t, target))
  }

  /** The committing transaction of an administrative password reset, whose visibility check uses full authority. */
  function ResetUserPassword(t: Tables, ctx: Context, target: UserId): Change {
    var actor :- CurrentActor(t, ctx);
    :- Need(UsersPasswordReset in actor.permissions, MissingOperationPermission);
    :- Need(t.Live(target), TargetUserNotFound);
    :- Need(UserVisible(actor, t.Full(target)), TargetUserNotFound);
    :- Permit(DecideUserAdministration(actor, t.Full(target), UsersPasswordReset));
    Ok(WithSessionsRevoked(t, target))
  }

  // ----- binding roles to a user -----

  predicate Requestable(t: Tables, operation: RoleOperation, target: UserId, r: RoleId) {
    r in t.roles && !t.roles[r].deleted &&
    !(operation == Bind && (target, r) !in t.bindings && !t.roles[r].active)
  }

  function GrantList(t: Tables, ids: seq<RoleId>): (grants: seq<RoleGrant>)
    requires forall r :: r in ids ==> r in t.roles
    ensures |grants| == |ids| && forall i :: 0 <= i < |ids| ==> grants[i] == t.GrantOf(ids[i])
  {
    if ids == [] then [] else [t.GrantOf(ids[0])] + GrantList(t, ids[1..])
  }

  /** The snapshot the policy is asked about: each grant added, or each role removed, in turn. */
  function Predicted(operation: RoleOperation, before: AuthoritySnapshot, grants: seq<RoleGrant>): AuthoritySnapshot
    decreases |grants|
  {
    if grants == [] then before
    else
      Predicted(operation,
                if operation == Bind then before.WithRole(grants[0]) else before.WithoutRole(grants[0].roleId),
                grants[1..])
  }

  function ChangedIds(t: Tables, operation: RoleOperation, target: UserId, ids: set<RoleId>): set<RoleId> {
    if operation == Bind then ids - t.RolesOf(target) else ids * t.RolesOf(target)
  }

  function Pairs(u: UserId, ids: set<RoleId>): (pairs: set<(UserId, RoleId)>)
    ensures forall v, r :: (v, r) in pairs <==> v == u && r in ids
  {
    set r | r in ids :: (u, r)
  }

  function WithRolesChanged(t: Tables, operation: RoleOperation, target: UserId, changed: set<RoleId>): Tables
    requires target in t.users
  {
    if changed == {} then t else
      t.(bindings := if operation == Bind then t.bindings + Pairs(target, changed) else t.bindings - Pairs(target, changed),
         users := t.users[target := t.users[target].(authzVersion := t.users[target].authzVersion + 1)],
         epoch := t.epoch + 1)
  }

  function ChangeUserRoles(t: Tables, ctx: Context, target: UserId, ids: set<RoleId>, operation: RoleOperation): Change {
    var required := if operation == Bind then RolesAssign else RolesRevoke;
    :- Need(ids != {}, RoleIdsRequired);
    var (actor, _) :- ActorAndTarget(t, ctx, target, required);
    :- Need(forall r :: r in ids ==> Requestable(t, operation, target, r), RoleNotFound);
    AscendingMembers(ids);
    ChangeListedRoles(t, actor, target, ids, Ascending(ids), operation)
  }

  function ChangeListedRoles(t: Tables, actor: AuthoritySnapshot, target: UserId, ids: set<RoleId>, list: seq<RoleId>,
                             operation: RoleOperation): Change
    requires t.Live(target)
    requires forall r :: r in list ==> r in t.roles
  {
    var before := t.Full(target);
    var grants := GrantList(t, list);
    :- Need(forall i :: 0 <= i < |grants| ==> RoleVisible(actor, grants[i]), RoleNotFound);
    :- Permit(DecideRoleChange(operation, actor, before, Predicted(operation, before, grants), grants));
    var changed := ChangedIds(t, operation, target, ids);
    :- Need(operation == Unbind || changed == {} || |t.RolesOf(target)| + |changed| <= MAX_ROLES_PER_USER,
            UserRoleLimitExceeded);
    Ok(WithRolesChanged(t, operation, target, changed))
  }

  // ----- roles -----

  function NewRole(key: RoleKey, name: string, description: string, tier: nat): RoleRow {
    RoleRow(key, name, description, tier, true, false, false, false, false, 0)
  }

  function CreateRole(t: Tables, ctx: Context, id: RoleId, key: RoleKey, name: string, description: string, tier: int): Change {
    var actor :- LockedActor(t, ctx);
    :- Permit(DecideRoleCreate(actor, tier));
    :- Need(key.CustomKey?, ReservedRoleKey);
    :- Need(forall r :: r in t.roles ==> t.roles[r].key != key, RoleKeyExists);
    :- Need(id !in t.roles, DuplicateId);
    Ok(t.(roles := t.roles[id := NewRole(key, name, description, tier)], epoch := t.epoch + 1))
  }

  datatype SharedRole = SharedRole(actor: AuthoritySnapshot, before: RoleGrant, holders: set<UserId>)

  function LockSharedRole(t: Tables, ctx: Context, id: RoleId, required: Permission, includeInactive: bool)
    : (locked: Result<SharedRole, Reason>)
  {
    var actor :- LockedActor(t, ctx);
    :- Need(required in actor.permissions, MissingOperationPermission);
    :- Need(t.Counts(id, includeInactive), RoleNotFound);
    :- Need(RoleVisible(actor, t.GrantOf(id)), RoleNotFound);
    Ok(SharedRole(actor, t.GrantOf(id), t.HoldersOf(id)))
  }

  function SnapshotList(t: Tables, ids: seq<UserId>): (snapshots: seq<AuthoritySnapshot>)
    requires forall u :: u in ids ==> u in t.users
    ensures |snapshots| == |ids| && forall i :: 0 <= i < |ids| ==> snapshots[i] == t.Full(ids[i])
  {
    if ids == [] then [] else [t.Full(ids[0])] + SnapshotList(t, ids[1..])
  }

  function Affected(t: Tables, r: RoleId): seq<AuthoritySnapshot> {
    AscendingMembers(t.HoldersOf(r));
    SnapshotList(t, Ascending(t.HoldersOf(r)))
  }

  function WithRoleEach(snapshots: seq<AuthoritySnapshot>, role: RoleGrant): (after: seq<AuthoritySnapshot>)
    ensures |after| == |snapshots| && forall i :: 0 <= i < |after| ==> after[i] == snapshots[i].WithRole(role)
  {
    if snapshots == [] then [] else [snapshots[0].WithRole(role)] + WithRoleEach(snapshots[1..], role)
  }

  function Administer(t: Tables, locked: SharedRole, operation: Administration): Check<Reason> {
    Permit(DecideRoleAdministration(operation, locked.actor, locked.before, locked.actor.userId in locked.holders,
                                    Affected(t, locked.before.roleId)))
  }

  function Bumped(users: map<UserId, UserRow>, ids: set<UserId>): map<UserId, UserRow> {
    map u | u in users :: if u in ids then users[u].(authzVersion := users[u].authzVersion + 1) else users[u]
  }

  /** Every shared change advances the role version, each holder's authority version and the epoch. */
  function BumpShared(t: Tables, id: RoleId, holders: set<UserId>): Tables
    requires id in t.roles
  {
    t.(roles := t.roles[id := t.roles[id].(version := t.roles[id].version + 1)],
       users := Bumped(t.users, holders),
       epoch := t.epoch + 1)
  }

  function Renamed(row: RoleRow, name: Option<string>, description: Option<string>): RoleRow {
    row.(name := if name.Some? then name.value else row.name,
         description := if description.Some? then description.value else row.description)
  }

  function WithRoleRenamed(t: Tables, id: RoleId, name: Option<string>, description: Option<string>): Tables
    requires id in t.roles
  {
    var after := Renamed(t.roles[id], name, description);
    if after == t.roles[id] then t else
      t.(roles := t.roles[id := after.(version := after.version + 1)], epoch := t.epoch + 1)
  }

  function UpdateRole(t: Tables, ctx: Context, id: RoleId, name: Option<string>, description: Option<string>,
                      expected: nat): Change
  {
    var locked :- LockSharedRole(t, ctx, id, RolesUpdate, true);
    :- Administer(t, locked, Update);
    :- Need(t.roles[id].version == expected, StaleRoleVersion);
    Ok(WithRoleRenamed(t, id, name, description))
  }

  function WithRoleActive(t: Tables, id: RoleId, active: bool): Tables
    requires id in t.roles
  {
    if t.roles[id].active == active then t else
      BumpShared(t.(roles := t.roles[id := t.roles[id].(active := active)]), id, t.HoldersOf(id))
  }

  function SetRoleActive(t: Tables, ctx: Context, id: RoleId, active: bool, expected: nat): Change {
    var locked :- LockSharedRole(t, ctx, id, RolesStatusUpdate, true);
    :- Administer(t, locked, if active then Enable else Disable);
    :- Need(t.roles[id].version == expected, StaleRoleVersion);
    Ok(WithRoleActive(t, id, active))
  }

  function WithoutRole(t: Tables, id: RoleId): Tables
    requires id in t.roles
  {
    BumpShared(t.(roles := t.roles[id := t.roles[id].(active := false, deleted := true)],
                  bindings := (set b | b in t.bindings && b.1 != id),
                  grants := (set g | g in t.grants && g.0 != id)),
               id, t.HoldersOf(id))
  }

  function SoftDeleteRole(t: Tables, ctx: Context, id: RoleId, expected: nat): Change {
    var locked :- LockSharedRole(t, ctx, id, RolesDelete, true);
    :- Administer(t, locked, Delete);
    :- Need(t.roles[id].version == expected, StaleRoleVersion);
    Ok(WithoutRole(t, id))
  }

  function PermissionsAfter(operation: RoleOperation, before: set<Permission>, requested: set<Permission>): set<Permission> {
    if operation == Bind then before + requested else before - requested
  }

  function GrantRows(id: RoleId, keys: set<Permission>): (rows: set<(RoleId, Permission)>)
    ensures forall r, p :: (r, p) in rows <==> r == id && p in keys
  {
    set p | p in keys :: (id, p)
  }

  function WithPermissions(t: Tables, id: RoleId, keys: set<Permission>): Tables
    requires id in t.roles
  {
    if t.PermissionsOf(id) == keys then t else
      BumpShared(t.(grants := (set g | g in t.grants && g.0 != id) + GrantRows(id, keys)), id, t.HoldersOf(id))
  }

  function AdministerPermissions(t: Tables, locked: SharedRole, operation: RoleOperation, after: set<Permission>): Check<Reason> {
    Permit(DecideRolePermissionsChange(operation, locked.actor, locked.before, after, locked.actor.userId in locked.holders,
                                       WithRoleEach(Affected(t, locked.before.roleId), locked.before.(permissions := after))))
  }

  function ChangeRolePermissions(t: Tables, ctx: Context, id: RoleId, requested: set<PermissionId>,
                                 operation: RoleOperation, expected: nat): Change
  {
    var required := if operation == Bind then RolesPermissionsBind else RolesPermissionsUnbind;
    :- Need(requested != {}, PermissionIdsRequired);
    var locked :- LockSharedRole(t, ctx, id, required, false);
    :- Need(requested <= t.catalog.Keys, UnknownPermissionId);
    var keys := set p | p in requested :: t.catalog[p];
    :- Need(keys <= SUPER_ADMIN_PERMISSIONS, PermissionOutsideControlPlane);
    var after := PermissionsAfter(operation, locked.before.permissions, keys);
    :- AdministerPermissions(t, locked, operation, after);
    :- Need(t.roles[id].version == expected, StaleRoleVersion);
    Ok(WithPermissions(t, id, after))
  }

  // ----- provisioning and the registration switch -----

  function RoleWithKey(t: Tables, key: RoleKey): (found: Option<RoleId>)
    ensures found.Some? ==> found.value in t.roles && t.roles[found.value].key == key
    ensures found.None? ==> forall r :: r in t.roles ==> t.roles[r].key != key
  {
    var matches := set r | r in t.roles && t.roles[r].key == key;
    if matches == {} then
      assert forall r :: r in t.roles && t.roles[r].key == key ==> r in matches;
      None
    else
      Some(Highest(matches))
  }

  predicate IsDefaultRole(row: RoleRow) {
    row.isSystem && !row.isProtected && !row.isSuperAdmin && row.active && row.tier == 0 && !row.deleted
  }

  function WithNewUser(t: Tables, id: UserId, name: string, base: RoleId): Tables {
    t.(users := t.users[id := UserRow(name, true, false, false, 0, 1)],
       bindings := t.bindings + {(id, base)},
       epoch := t.epoch + 1)
  }

  function Provision(t: Tables, id: UserId, name: string): Change {
    var isNew := id !in t.users && forall u :: u in t.users ==> t.users[u].name != name;
    :- Need(isNew, UserIdentityExists);
    :- Need(RoleWithKey(t, UserKey).Some?, DefaultUserRoleMissing);
    var base := RoleWithKey(t, UserKey).value;
    :- Need(IsDefaultRole(t.roles[base]), DefaultUserRoleMismatch);
    Ok(WithNewUser(t, id, name, base))
  }

  function Register(t: Tables, id: UserId, name: string): Change {
    if !t.registrationOpen then Err(RegistrationClosed) else Provision(t, id, name)
  }

  function CreateUser(t: Tables, ctx: Context, id: UserId, name: string): Change {
    var actor :- CurrentActor(t, ctx);
    :- Need(UsersCreate in actor.permissions, MissingOperationPermission);
    Provision(t, id, name)
  }

  function SetRegistration(t: Tables, ctx: Context, open: bool): Change {
    var actor :- CurrentActor(t, ctx);
    :- Need(actor.isSuperAdmin && RegistrationConfigure in actor.permissions, RegistrationSettingRequiresSuperAdmin);
    Ok(t.(registrationOpen := open))
  }

  // ----- the machine -----

  datatype Request =
    | UpdateUserStatusRequest(ctx: Context, target: UserId, active: bool)
    | RevokeUserSessionsRequest(ctx: Context, target: UserId)
    | ResetUserPasswordRequest(ctx: Context, target: UserId)
    | ChangeUserRolesRequest(ctx: Context, target: UserId, roleIds: set<RoleId>, operation: RoleOperation)
    | CreateRoleRequest(ctx: Context, id: RoleId, key: RoleKey, name: string, description: string, tier: int)
    | UpdateRoleRequest(ctx: Context, id: RoleId, newName: Option<string>, newDescription: Option<string>, expected: nat)
    | SetRoleActiveRequest(ctx: Context, id: RoleId, active: bool, expected: nat)
    | SoftDeleteRoleRequest(ctx: Context, id: RoleId, expected: nat)
    | ChangeRolePermissionsRequest(ctx: Context, id: RoleId, permissionIds: set<PermissionId>, operation: RoleOperation,
                                   expected: nat)
    | CreateUserRequest(ctx: Context, id: UserId, name: string)
    | SetRegistrationRequest(ctx: Context, open: bool)
    | RegisterRequest(id: UserId, name: string)

  function Apply(t: Tables, request: Request): Change {
    match request
    case UpdateUserStatusRequest(ctx, target, active) => UpdateUserStatus(t, ctx, target, active)
    case RevokeUserSessionsRequest(ctx, target) => RevokeUserSessions(t, ctx, target)
    case ResetUserPasswordRequest(ctx, target) => ResetUserPassword(t, ctx, target)
    case ChangeUserRolesRequest(ctx, target, ids, operation) => ChangeUserRoles(t, ctx, target, ids, operation)
    case CreateRoleRequest(ctx, id, key, name, description, tier) => CreateRole(t, ctx, id, key, name, description, tier)
    case UpdateRoleRequest(ctx, id, name, description, expected) => UpdateRole(t, ctx, id, name, description, expected)
    case SetRoleActiveRequest(ctx, id, active, expected) => SetRoleActive(t, ctx, id, active, expected)
    case SoftDeleteRoleRequest(ctx, id, expected) => SoftDeleteRole(t, ctx, id, expected)
    case ChangeRolePermissionsRequest(ctx, id, ids, operation, expected) =>
      ChangeRolePermissions(t, ctx, id, ids, operation, expected)
    case CreateUserRequest(ctx, id, name) => CreateUser(t, ctx, id, name)
    case SetRegistrationRequest(ctx, open) => SetRegistration(t, ctx, open)
    case RegisterRequest(id, name) => Register(t, id, name)
  }

  /** A refused transaction rolls back, leaving the tables as they were. */
  function Next(t: Tables, request: Request): Tables {
    var outcome := Apply(t, request);
    if outcome.Ok? then outcome.value else t
  }

  function Run(t: Tables, requests: seq<Request>): Tables
    decreases |requests|
  {
    if requests == [] then t else Run(Next(t, requests[0]), requests[1..])
  }
}
