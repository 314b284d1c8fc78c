/** Theorems about whole runs of the access machine. */
module AccessRuns {
  import opened Wrappers
  import opened Domain
  import opened Policy
  import opened AccessTables
  import opened AccessFrame
  import opened AccessInvariant
  import opened AccessSteps

  // ----- every reachable state satisfies the invariant -----

  lemma RefusalPreserves(t: Tables)
    requires Inv(t)
    ensures Preserved(t, t)
  {
  }

  lemma NextPreserves(t: Tables, request: Request)
    requires Inv(t)
    ensures Preserved(t, Next(t, request))
  {
    hide Inv, Preserved, Apply;
    RefusalPreserves(t);
    if Apply(t, request).Ok? {
      StepPreserves(t, request, Apply(t, request).value);
    }
  }

  /**
   From any legal state, every run keeps the invariant, the built-in roles and
   their grants, and the super administrator.
   */
  lemma {:induction false} RunPreserves(t: Tables, requests: seq<Request>)
    requires Inv(t)
    ensures Preserved(t, Run(t, requests))
    decreases |requests|
  {
    hide Next, Inv;
    if requests == [] {
      RefusalPreserves(t);
    } else {
      NextPreserves(t, requests[0]);
      RunPreserves(Next(t, requests[0]), requests[1..]);
      hide Preserved;
      PreservedTransitive(t, Next(t, requests[0]), Run(t, requests));
    }
  }

  lemma ConfiguresThroughSuper(t: Tables, u: UserId)
    requires GrantsSound(t) && u in t.users && RegistrationConfigure in t.Full(u).permissions
    ensures HoldsSuper(t, u)
  {
    var r :| r in t.GrantsOf(u, true) && RegistrationConfigure in t.GrantsOf(u, true)[r].permissions;
    assert (r, RegistrationConfigure) in t.grants && (u, r) in t.bindings;
  }

  /** In every reachable state only the super administrator of the start can configure registration, by whatever roles. */
  lemma OnlySuperAdminConfigures(t: Tables, requests: seq<Request>, u: UserId)
    requires Inv(t) && u in Run(t, requests).users
    requires RegistrationConfigure in Run(t, requests).Full(u).permissions
    ensures HoldsSuper(t, u)
  {
    RunPreserves(t, requests);
    hide Run;
    ConfiguresThroughSuper(Run(t, requests), u);
  }

  // ----- the migrated trigger functions, none of which ever raises -----

  ghost predicate BaseRoleTriggerRaises(after: Tables, u: UserId) {
    u in after.users && !after.users[u].deleted &&
    !exists r :: (u, r) in after.bindings && r in after.roles && after.roles[r].key == UserKey && !after.roles[r].deleted
  }

  ghost predicate RoleLimitTriggerRaises(after: Tables, u: UserId) {
    |after.RolesOf(u)| > MAX_ROLES_PER_USER
  }

  function HoldersOfKey(t: Tables, key: RoleKey): set<UserId> {
    set b | b in t.bindings && b.1 in t.roles && t.roles[b.1].key == key && !t.roles[b.1].deleted :: b.0
  }

  ghost predicate SuperAdminTriggerRaises(after: Tables) {
    |HoldersOfKey(after, SuperAdminKey)| != 1
  }

  ghost predicate SystemDefinitionTriggerRaises(before: Tables, after: Tables) {
    exists r :: r in before.roles && before.roles[r].isSystem &&
                (r !in after.roles || after.roles[r].(version := before.roles[r].version) != before.roles[r])
  }

  ghost predicate SystemGrantsTriggerRaises(before: Tables, after: Tables) {
    exists r, p :: r in after.roles && after.roles[r].isSystem && ((r, p) in before.grants <==> (r, p) !in after.grants)
  }

  lemma NoTriggerRaises(t: Tables, request: Request, t': Tables)
    requires Inv(t) && Apply(t, request) == Ok(t')
    ensures forall u :: !BaseRoleTriggerRaises(t', u) && !RoleLimitTriggerRaises(t', u)
    ensures !SuperAdminTriggerRaises(t')
    ensures !SystemDefinitionTriggerRaises(t, t')
    ensures !SystemGrantsTriggerRaises(t, t')
  {
    hide Apply;
    StepPreserves(t, request, t');
    forall u: UserId ensures !BaseRoleTriggerRaises(t', u) && !RoleLimitTriggerRaises(t', u) {
      NoUserTriggerRaises(t', u);
    }
    SoleHolder(t');
    SystemTriggersQuiet(t, t');
  }

  lemma NoUserTriggerRaises(t: Tables, u: UserId)
    requires RolesWellShaped(t) && Bounded(t)
    ensures !BaseRoleTriggerRaises(t, u) && !RoleLimitTriggerRaises(t, u)
  {
    if t.Live(u) {
      var r :| (u, r) in t.bindings && r in t.roles && t.roles[r].key == UserKey;
      assert RoleShape(t.roles[r]);
    }
  }

  lemma SoleHolder(t: Tables)
    requires RolesWellShaped(t) && OneSuperAdmin(t)
    ensures |HoldersOfKey(t, SuperAdminKey)| == 1
  {
    var h: UserId :| HoldsSuper(t, h) && forall u: UserId :: HoldsSuper(t, u) ==> u == h;
    var s := HoldersOfKey(t, SuperAdminKey);
    forall u ensures u in s <==> u == h {
      if u in s {
        var b :| b in t.bindings && b.1 in t.roles && t.roles[b.1].key == SuperAdminKey && !t.roles[b.1].deleted && b.0 == u;
        assert RoleShape(t.roles[b.1]) && (u, b.1) in t.bindings;
        assert HoldsSuper(t, u);
      }
      if u == h {
        var r :| (h, r) in t.bindings && r in t.roles && t.roles[r].isSuperAdmin;
        assert RoleShape(t.roles[r]);
        assert (h, r).0 in s;
      }
    }
    assert s == {h};
  }

  lemma SystemTriggersQuiet(t: Tables, t': Tables)
    requires Preserved(t, t')
    ensures !SystemDefinitionTriggerRaises(t, t') && !SystemGrantsTriggerRaises(t, t')
  {
    forall r, p | r in t'.roles && t'.roles[r].isSystem ensures (r, p) in t.grants <==> (r, p) in t'.grants {
      assert t'.PermissionsOf(r) == t.PermissionsOf(r);
      assert p in t.PermissionsOf(r) <==> p in t'.PermissionsOf(r);
    }
  }

  // ----- privilege high-water mark -----

  function Ordinary(t: Tables): set<UserId> {
    set u | u in t.users && t.Live(u) && !t.Full(u).isSuperAdmin
  }

  /** The highest tier any ordinary user could ever exercise, disabled roles counted. */
  function Peak(t: Tables): nat {
    Highest(Tiers(t))
  }

  function Tiers(t: Tables): (tiers: set<nat>)
    ensures forall u :: u in Ordinary(t) ==> t.Full(u).tier in tiers
    ensures forall n :: n in tiers ==> exists u :: u in Ordinary(t) && t.Full(u).tier == n
  {
    set u | u in Ordinary(t) :: t.Full(u).tier
  }

  /** Every permission some ordinary user could ever exercise, disabled roles counted. */
  function Reach(t: Tables): set<Permission> {
    set u, p | u in Ordinary(t) && p in t.Full(u).permissions :: p
  }

  lemma WithinPeak(t: Tables, u: UserId)
    requires u in Ordinary(t)
    ensures t.Full(u).tier <= Peak(t) && t.Full(u).permissions <= Reach(t)
  {
    assert t.Full(u).tier in Tiers(t);
  }

  lemma PeakBelow(t: Tables, tier: nat, keys: set<Permission>)
    requires forall u :: u in Ordinary(t) ==> t.Full(u).tier <= tier && t.Full(u).permissions <= keys
    ensures Peak(t) <= tier && Reach(t) <= keys
  {
  }

  lemma EffectiveWithinFull(t: Tables, u: UserId)
    requires u in t.users
    ensures t.Effective(u).tier <= t.Full(u).tier
    ensures t.Effective(u).permissions <= t.Full(u).permissions
  {
    MoreRolesMoreAuthority(t.Effective(u), t.Full(u));
  }

  lemma SuperIffHolder(t: Tables, u: UserId)
    requires RolesWellShaped(t) && RowsResolve(t) && u in t.users
    ensures t.Full(u).isSuperAdmin <==> HoldsSuper(t, u)
  {
    if HoldsSuper(t, u) {
      var r :| (u, r) in t.bindings && r in t.roles && t.roles[r].isSuperAdmin;
      assert r in t.GrantsOf(u, true);
    }
    if t.Full(u).isSuperAdmin {
      var r :| r in t.GrantsOf(u, true) && t.GrantsOf(u, true)[r].isSuperAdmin;
      assert (u, r) in t.bindings;
    }
  }

  lemma ContainedKeepsPeak(t: Tables, actor: UserId, t': Tables)
    requires actor in Ordinary(t)
    requires Contained(t.Effective(actor), t, t') && NewcomersPowerless(t, t')
    requires forall u :: u in t.users ==> u in t'.users && t'.Live(u) == t.Live(u)
    ensures Peak(t') <= Peak(t) && Reach(t') <= Reach(t)
  {
    EffectiveWithinFull(t, actor);
    WithinPeak(t, actor);
    forall u | u in Ordinary(t') ensures t'.Full(u).tier <= Peak(t) && t'.Full(u).permissions <= Reach(t) {
      if u in t.users && Untouched(t, t', u) {
        WithinPeak(t, u);
      }
    }
    PeakBelow(t', Peak(t), Reach(t));
  }

  lemma UntouchedKeepsPeak(t: Tables, t': Tables)
    requires forall u :: t.Live(u) ==> u in t'.users && Untouched(t, t', u)
    requires NewcomersPowerless(t, t')
    requires forall u :: u in t.users ==> u in t'.users && t'.Live(u) == t.Live(u)
    ensures Peak(t') <= Peak(t) && Reach(t') <= Reach(t)
  {
    forall u | u in Ordinary(t') ensures t'.Full(u).tier <= Peak(t) && t'.Full(u).permissions <= Reach(t) {
      if u in t.users {
        assert Untouched(t, t', u);
        WithinPeak(t, u);
      }
    }
    PeakBelow(t', Peak(t), Reach(t));
  }

  ghost predicate AuthorOrdinary(t: Tables, request: Request) {
    Author(request).Some? ==> !HoldsSuper(t, Author(request).value.userId)
  }

  lemma StepKeepsPeak(t: Tables, request: Request, t': Tables)
    requires Inv(t) && Apply(t, request) == Ok(t') && AuthorOrdinary(t, request)
    ensures Peak(t') <= Peak(t) && Reach(t') <= Reach(t)
  {
    hide Apply;
    StepPreserves(t, request, t');
    StepNewcomers(t, request, t');
    StepContained(t, request, t');
    assert forall u :: u in t.users ==> u in t'.users && t'.Live(u) == t.Live(u);
    if Author(request).Some? {
      SuperIffHolder(t, Author(request).value.userId);
      hide Inv, Preserved, Contained, NewcomersPowerless, HoldsSuper, Peak, Reach;
      ContainedKeepsPeak(t, Author(request).value.userId, t');
    } else {
      hide Inv, Preserved, Contained, NewcomersPowerless, HoldsSuper, Peak, Reach, Untouched;
      UntouchedKeepsPeak(t, t');
    }
  }

  /**
   Over any run of requests by people other than the super administrator,
   registrations included, neither the highest tier nor the union of
   permissions within ordinary users' grasp ever grows.
   */
  lemma {:induction false} HighWaterMark(t: Tables, requests: seq<Request>)
    requires Inv(t)
    requires forall i :: 0 <= i < |requests| ==> AuthorOrdinary(t, requests[i])
    ensures Peak(Run(t, requests)) <= Peak(t)
    ensures Reach(Run(t, requests)) <= Reach(t)
    decreases |requests|
  {
    if requests != [] {
      var next := Next(t, requests[0]);
      NextKeepsPeak(t, requests[0]);
      AuthorsStayOrdinary(t, next, requests[1..]);
      hide Next, Peak, Reach, Inv, AuthorOrdinary;
      HighWaterMark(next, requests[1..]);
    }
  }

  lemma AuthorsStayOrdinary(t: Tables, t': Tables, requests: seq<Request>)
    requires forall u :: HoldsSuper(t', u) <==> HoldsSuper(t, u)
    requires forall i :: 0 <= i < |requests| ==> AuthorOrdinary(t, requests[i])
    ensures forall i :: 0 <= i < |requests| ==> AuthorOrdinary(t', requests[i])
  {
  }

  lemma NextKeepsPeak(t: Tables, request: Request)
    requires Inv(t) && AuthorOrdinary(t, request)
    ensures Inv(Next(t, request))
    ensures forall u :: HoldsSuper(Next(t, request), u) <==> HoldsSuper(t, u)
    ensures Peak(Next(t, request)) <= Peak(t) && Reach(Next(t, request)) <= Reach(t)
  {
    NextPreserves(t, request);
    hide Apply, Inv, Peak, Reach, HoldsSuper;
    if Apply(t, request).Ok? {
      StepKeepsPeak(t, request, Next(t, request));
    }
  }

  // ----- authority changes are versioned -----

  ghost predicate AuthorityDiffers(t: Tables, t': Tables, u: UserId)
    requires u in t.users && u in t'.users
  {
    || t.Effective(u).permissions != t'.Effective(u).permissions
    || t.Effective(u).tier != t'.Effective(u).tier
    || t.users[u].active != t'.users[u].active
  }

  ghost predicate VersionedFor(t: Tables, t': Tables, u: UserId)
    requires u in t.users
  {
    && u in t'.users
    && t.users[u].authzVersion <= t'.users[u].authzVersion
    && t.users[u].tokenVersion <= t'.users[u].tokenVersion
    && (AuthorityDiffers(t, t', u) ==> t.users[u].authzVersion < t'.users[u].authzVersion && t.epoch < t'.epoch)
  }

  ghost predicate Versioned(t: Tables, t': Tables) {
    t.epoch <= t'.epoch && forall u :: t.Live(u) ==> t'.Live(u) && VersionedFor(t, t', u)
  }

  lemma VersionedTransitive(a: Tables, b: Tables, c: Tables)
    requires Versioned(a, b) && Versioned(b, c)
    ensures Versioned(a, c)
  {
  }

  lemma UserRowVersioned(t: Tables, t': Tables, target: UserId)
    requires target in t.users && target in t'.users && t'.epoch >= t.epoch
    requires t'.users == t.users[target := t'.users[target]]
    requires t'.users[target].(tokenVersion := t.users[target].tokenVersion, active := t.users[target].active,
                               authzVersion := t.users[target].authzVersion) == t.users[target]
    requires t'.users[target].tokenVersion >= t.users[target].tokenVersion
    requires t'.users[target].authzVersion >= t.users[target].authzVersion
    requires t'.users[target].active != t.users[target].active ==>
               t'.users[target].authzVersion > t.users[target].authzVersion && t'.epoch > t.epoch
    requires t'.roles == t.roles && t'.bindings == t.bindings && t'.grants == t.grants
    ensures Versioned(t, t')
  {
    UserRowChanged(t, t', target);
    assert t'.Effective(target) == t'.Snapshot(target, false);
  }

  lemma RolesChangedVersioned(t: Tables, operation: RoleOperation, target: UserId, changed: set<RoleId>, t': Tables)
    requires target in t.users && t' == WithRolesChanged(t, operation, target, changed)
    ensures Versioned(t, t')
  {
    RolesChangedFrame(t, operation, target, changed);
  }

  /** Holders are bumped together with the epoch; everybody else is untouched. */
  lemma SharedVersioned(t: Tables, t': Tables, id: RoleId)
    requires t'.epoch == t.epoch + 1 && t'.users == Bumped(t.users, t.HoldersOf(id))
    requires forall u :: t.Live(u) && u !in t.HoldersOf(id) ==> u in t'.users && Untouched(t, t', u)
    ensures Versioned(t, t')
  {
  }

  lemma RoleActiveVersioned(t: Tables, id: RoleId, active: bool, t': Tables)
    requires id in t.roles && t' == WithRoleActive(t, id, active)
    ensures Versioned(t, t')
  {
    if t.roles[id].active != active {
      SharedChangeFrame(t, t', id);
      SharedVersioned(t, t', id);
    }
  }

  lemma DeletionVersioned(t: Tables, id: RoleId, t': Tables)
    requires id in t.roles && t' == WithoutRole(t, id)
    ensures Versioned(t, t')
  {
    SharedChangeFrame(t, t', id);
    SharedVersioned(t, t', id);
  }

  lemma PermissionsVersioned(t: Tables, id: RoleId, keys: set<Permission>, t': Tables)
    requires id in t.roles && t' == WithPermissions(t, id, keys)
    ensures Versioned(t, t')
  {
    if t.PermissionsOf(id) != keys {
      PermissionsFrame(t, id, keys, t');
      SharedVersioned(t, t', id);
    }
  }

  lemma UntouchedVersioned(t: Tables, t': Tables)
    requires t.epoch <= t'.epoch
    requires forall u :: t.Live(u) ==> u in t'.users && Untouched(t, t', u)
    ensures Versioned(t, t')
  {
  }

  lemma StepVersioned(t: Tables, request: Request, t': Tables)
    requires RowsResolve(t) && Apply(t, request) == Ok(t')
    ensures Versioned(t, t')
  {
    hide Versioned, ChangeUserRoles, UpdateRole, ChangeRolePermissions, Provision, CreateRole, SetRoleActive, SoftDeleteRole,
         CurrentActor, LockedActor, UserVisible, DecideUserAdministration, Build;
    match request
    case UpdateUserStatusRequest(ctx, target, active) => StatusVersioned(t, target, active, t');
    case RevokeUserSessionsRequest(ctx, target) => SessionsVersioned(t, target, t');
    case ResetUserPasswordRequest(ctx, target) => SessionsVersioned(t, target, t');
    case ChangeUserRolesRequest(ctx, target, ids, operation) => UserRolesVersioned(t, ctx, target, ids, operation, t');
    case CreateRoleRequest(ctx, id, key, name, description, tier) =>
      CreateRoleVersioned(t, ctx, id, key, name, description, tier, t');
    case UpdateRoleRequest(ctx, id, name, description, expected) =>
      UpdateRoleVersioned(t, ctx, id, name, description, expected, t');
    case SetRoleActiveRequest(ctx, id, active, expected) => SetRoleActiveVersioned(t, ctx, id, active, expected, t');
    case SoftDeleteRoleRequest(ctx, id, expected) => SoftDeleteRoleVersioned(t, ctx, id, expected, t');
    case ChangeRolePermissionsRequest(ctx, id, ids, operation, expected) =>
      RolePermissionsVersioned(t, ctx, id, ids, operation, expected, t');
    case CreateUserRequest(ctx, id, name) => ProvisionVersioned(t, id, name, t');
    case SetRegistrationRequest(ctx, open) => SwitchVersioned(t, open, t');
    case RegisterRequest(id, name) => ProvisionVersioned(t, id, name, t');
  }

  lemma UserRolesVersioned(t: Tables, ctx: Context, target: UserId, ids: set<RoleId>, operation: RoleOperation, t': Tables)
    requires ChangeUserRoles(t, ctx, target, ids, operation) == Ok(t')
    ensures Versioned(t, t')
  {
    hide Versioned, Build, UserVisible, RoleVisible, DecideRoleChange, Predicted, WithRolesChanged, ChangedIds;
    RolesChangedVersioned(t, operation, target, ChangedIds(t, operation, target, ids), t');
  }

  lemma CreateRoleVersioned(t: Tables, ctx: Context, id: RoleId, key: RoleKey, name: string, description: string, tier: int,
                            t': Tables)
    requires RowsResolve(t) && CreateRole(t, ctx, id, key, name, description, tier) == Ok(t')
    ensures Versioned(t, t')
  {
    hide Versioned;
    NewRoleTouchesNobody(t, id, NewRole(key, name, description, tier), t');
    UntouchedVersioned(t, t');
  }

  lemma UpdateRoleVersioned(t: Tables, ctx: Context, id: RoleId, name: Option<string>, description: Option<string>, expected: nat,
                            t': Tables)
    requires UpdateRole(t, ctx, id, name, description, expected) == Ok(t')
    ensures Versioned(t, t')
  {
    hide Versioned, Administer, WithRoleRenamed;
    RenamedVersioned(t, id, name, description, t');
  }

  lemma RenamedVersioned(t: Tables, id: RoleId, name: Option<string>, description: Option<string>, t': Tables)
    requires id in t.roles && t' == WithRoleRenamed(t, id, name, description)
    ensures Versioned(t, t')
  {
    hide Versioned;
    RenamingTouchesNobody(t, t', id);
    UntouchedVersioned(t, t');
  }

  lemma SetRoleActiveVersioned(t: Tables, ctx: Context, id: RoleId, active: bool, expected: nat, t': Tables)
    requires SetRoleActive(t, ctx, id, active, expected) == Ok(t')
    ensures Versioned(t, t')
  {
    hide Versioned, Administer, WithRoleActive;
    RoleActiveVersioned(t, id, active, t');
  }

  lemma SoftDeleteRoleVersioned(t: Tables, ctx: Context, id: RoleId, expected: nat, t': Tables)
    requires SoftDeleteRole(t, ctx, id, expected) == Ok(t')
    ensures Versioned(t, t')
  {
    hide Versioned, Administer, WithoutRole;
    DeletionVersioned(t, id, t');
  }

  lemma RolePermissionsVersioned(t: Tables, ctx: Context, id: RoleId, requested: set<PermissionId>, operation: RoleOperation,
                                 expected: nat, t': Tables)
    requires ChangeRolePermissions(t, ctx, id, requested, operation, expected) == Ok(t')
    ensures Versioned(t, t')
  {
    hide Versioned, AdministerPermissions, WithPermissions;
    var keys := set p | p in requested :: t.catalog[p];
    PermissionsVersioned(t, id, PermissionsAfter(operation, t.PermissionsOf(id), keys), t');
  }

  lemma StatusVersioned(t: Tables, target: UserId, active: bool, t': Tables)
    requires target in t.users && t' == WithStatus(t, target, active)
    ensures Versioned(t, t')
  {
    if t.users[target].active != active {
      UserRowVersioned(t, t', target);
    }
  }

  lemma SessionsVersioned(t: Tables, target: UserId, t': Tables)
    requires target in t.users && t' == WithSessionsRevoked(t, target)
    ensures Versioned(t, t')
  {
    UserRowVersioned(t, t', target);
  }

  lemma ProvisionVersioned(t: Tables, id: UserId, name: string, t': Tables)
    requires Provision(t, id, name) == Ok(t')
    ensures Versioned(t, t')
  {
    hide Versioned;
    ProvisionTouchesNobody(t, id, name, t');
    UntouchedVersioned(t, t');
  }

  lemma SwitchVersioned(t: Tables, open: bool, t': Tables)
    requires t' == t.(registrationOpen := open)
    ensures Versioned(t, t')
  {
    forall r | r in t.roles ensures t.GrantOf(r) == t'.GrantOf(r) {
      SameGrant(t, t', r);
    }
    forall u, d | u in t.users ensures t.GrantsOf(u, d) == t'.GrantsOf(u, d) && t.RolesOf(u) == t'.RolesOf(u) {
      SameGrants(t, t', u, d);
    }
    UntouchedVersioned(t, t');
  }

  /**
   Between any two states of a run, a user whose effective permissions, tier
   or active flag differ has a strictly greater authority version in the later
   state, whose epoch is strictly greater too.
   */
  lemma {:induction false} AuthorityChangeVersioned(t: Tables, requests: seq<Request>)
    requires Inv(t)
    ensures Versioned(t, Run(t, requests))
    decreases |requests|
  {
    if requests != [] {
      var next := Next(t, requests[0]);
      NextPreserves(t, requests[0]);
      NextVersioned(t, requests[0]);
      AuthorityChangeVersioned(next, requests[1..]);
      hide Next, Inv, Preserved;
      VersionedTransitive(t, next, Run(t, requests));
    }
  }

  lemma NextVersioned(t: Tables, request: Request)
    requires RowsResolve(t)
    ensures Versioned(t, Next(t, request))
  {
    hide Apply;
    if Apply(t, request).Ok? {
      StepVersioned(t, request, Next(t, request));
    }
  }

  // ----- optimistic role versions -----

  /** The role a request edits and the version its sender had seen. */
  function Edits(request: Request): Option<(RoleId, nat)> {
    match request
    case UpdateRoleRequest(_, id, _, _, expected) => Some((id, expected))
    case SetRoleActiveRequest(_, id, _, expected) => Some((id, expected))
    case SoftDeleteRoleRequest(_, id, expected) => Some((id, expected))
    case ChangeRolePermissionsRequest(_, id, _, _, expected) => Some((id, expected))
    case _ => None
  }

  ghost predicate RoleVersionsGrow(t: Tables, t': Tables) {
    forall r :: r in t.roles ==> r in t'.roles && t.roles[r].version <= t'.roles[r].version
  }

  ghost predicate Consumes(t: Tables, r: RoleId, expected: nat, t': Tables) {
    && RoleVersionsGrow(t, t')
    && (t' != t ==> r in t.roles && t.roles[r].version == expected && t'.roles[r].version == expected + 1)
  }

  /** An edit that changes anything was sent with the current version, and consumes it. */
  lemma EditConsumesVersion(t: Tables, request: Request, t': Tables)
    requires Apply(t, request) == Ok(t') && Edits(request).Some?
    ensures Consumes(t, Edits(request).value.0, Edits(request).value.1, t')
  {
    hide Consumes, UpdateRole, SetRoleActive, SoftDeleteRole, ChangeRolePermissions;
    match request
    case UpdateRoleRequest(ctx, id, name, description, expected) =>
      RenamingConsumesVersion(t, ctx, id, name, description, expected, t');
    case SetRoleActiveRequest(ctx, id, active, expected) => ActiveConsumesVersion(t, ctx, id, active, expected, t');
    case SoftDeleteRoleRequest(ctx, id, expected) => DeletionConsumesVersion(t, ctx, id, expected, t');
    case ChangeRolePermissionsRequest(ctx, id, ids, operation, expected) =>
      PermissionsConsumeVersion(t, ctx, id, ids, operation, expected, t');
  }

  lemma RenamingConsumesVersion(t: Tables, ctx: Context, id: RoleId, name: Option<string>, description: Option<string>,
                                expected: nat, t': Tables)
    requires UpdateRole(t, ctx, id, name, description, expected) == Ok(t')
    ensures Consumes(t, id, expected, t')
  {
    hide LockedActor, RoleVisible, Administer;
  }

  lemma ActiveConsumesVersion(t: Tables, ctx: Context, id: RoleId, active: bool, expected: nat, t': Tables)
    requires SetRoleActive(t, ctx, id, active, expected) == Ok(t')
    ensures Consumes(t, id, expected, t')
  {
    hide LockedActor, RoleVisible, Administer, Bumped;
  }

  lemma DeletionConsumesVersion(t: Tables, ctx: Context, id: RoleId, expected: nat, t': Tables)
    requires SoftDeleteRole(t, ctx, id, expected) == Ok(t')
    ensures Consumes(t, id, expected, t')
  {
    hide LockedActor, RoleVisible, Administer, Bumped;
  }

  lemma PermissionsConsumeVersion(t: Tables, ctx: Context, id: RoleId, requested: set<PermissionId>, operation: RoleOperation,
                                  expected: nat, t': Tables)
    requires ChangeRolePermissions(t, ctx, id, requested, operation, expected) == Ok(t')
    ensures Consumes(t, id, expected, t')
  {
    hide LockedActor, RoleVisible, AdministerPermissions, Bumped, GrantRows, PermissionsAfter;
  }

  lemma OthersKeepRoleVersions(t: Tables, request: Request, t': Tables)
    requires Apply(t, request) == Ok(t') && Edits(request).None?
    ensures RoleVersionsGrow(t, t')
  {
    if request.CreateRoleRequest? {
      hide LockedActor, DecideRoleCreate;
    } else {
      OthersKeepRoles(t, request, t');
      hide Apply;
    }
  }

  lemma OthersKeepRoles(t: Tables, request: Request, t': Tables)
    requires Apply(t, request) == Ok(t') && Edits(request).None? && !request.CreateRoleRequest?
    ensures t'.roles == t.roles
  {
    hide UpdateUserStatus, RevokeUserSessions, ResetUserPassword, ChangeUserRoles, CreateUser, SetRegistration, Register;
    match request
    case UpdateUserStatusRequest(ctx, target, active) => StatusKeepsRoles(t, ctx, target, active, t');
    case RevokeUserSessionsRequest(ctx, target) => RevocationKeepsRoles(t, ctx, target, t');
    case ResetUserPasswordRequest(ctx, target) => ResetKeepsRoles(t, ctx, target, t');
    case ChangeUserRolesRequest(ctx, target, ids, operation) => BindingKeepsRoles(t, ctx, target, ids, operation, t');
    case CreateUserRequest(ctx, id, name) => CreationKeepsRoles(t, ctx, id, name, t');
    case SetRegistrationRequest(ctx, open) => SettingKeepsRoles(t, ctx, open, t');
    case RegisterRequest(id, name) => RegistrationKeepsRoles(t, id, name, t');
  }

  lemma StatusKeepsRoles(t: Tables, ctx: Context, target: UserId, active: bool, t': Tables)
    requires UpdateUserStatus(t, ctx, target, active) == Ok(t')
    ensures t'.roles == t.roles
  {
    hide LockedActor, DecideUserAdministration, UserVisible, Tables.Snapshot;
  }

  lemma RevocationKeepsRoles(t: Tables, ctx: Context, target: UserId, t': Tables)
    requires RevokeUserSessions(t, ctx, target) == Ok(t')
    ensures t'.roles == t.roles
  {
    hide LockedActor, DecideUserAdministration, UserVisible, Tables.Snapshot;
  }

  lemma ResetKeepsRoles(t: Tables, ctx: Context, target: UserId, t': Tables)
    requires ResetUserPassword(t, ctx, target) == Ok(t')
    ensures t'.roles == t.roles
  {
    hide CurrentActor, DecideUserAdministration, UserVisible, Tables.Snapshot;
  }

  lemma CreationKeepsRoles(t: Tables, ctx: Context, id: UserId, name: string, t': Tables)
    requires CreateUser(t, ctx, id, name) == Ok(t')
    ensures t'.roles == t.roles
  {
    hide CurrentActor;
  }

  lemma SettingKeepsRoles(t: Tables, ctx: Context, open: bool, t': Tables)
    requires SetRegistration(t, ctx, open) == Ok(t')
    ensures t'.roles == t.roles
  {
    hide CurrentActor;
  }

  lemma RegistrationKeepsRoles(t: Tables, id: UserId, name: string, t': Tables)
    requires Register(t, id, name) == Ok(t')
    ensures t'.roles == t.roles
  {
  }

  lemma BindingKeepsRoles(t: Tables, ctx: Context, target: UserId, ids: set<RoleId>, operation: RoleOperation, t': Tables)
    requires ChangeUserRoles(t, ctx, target, ids, operation) == Ok(t')
    ensures t'.roles == t.roles
  {
    hide ActorAndTarget, Requestable, RoleVisible, DecideRoleChange, Predicted, ChangedIds, Tables.Snapshot, Pairs, GrantList;
  }

  ghost predicate Commits(t: Tables, request: Request) {
    Apply(t, request).Ok? && Apply(t, request).value != t
  }

  lemma {:induction false} VersionsGrowOverRun(t: Tables, requests: seq<Request>)
    ensures RoleVersionsGrow(t, Run(t, requests))
    decreases |requests|
  {
    if requests != [] {
      var next := Next(t, requests[0]);
      hide Apply;
      if Apply(t, requests[0]).Ok? {
        if Edits(requests[0]).Some? {
          EditConsumesVersion(t, requests[0], next);
        } else {
          OthersKeepRoleVersions(t, requests[0], next);
        }
      }
      VersionsGrowOverRun(next, requests[1..]);
    }
  }

  /**
   Of two edits of one role sent with the same version, at most one changes
   anything, whatever runs before, between or after them.
   */
  lemma OneWinnerPerVersion(t: Tables, first: Request, between: seq<Request>, second: Request)
    requires Edits(first).Some? && Edits(second) == Edits(first)
    requires Commits(t, first)
    ensures !Commits(Run(Next(t, first), between), second)
  {
    hide Apply;
    var t' := Next(t, first);
    EditConsumesVersion(t, first, t');
    VersionsGrowOverRun(t', between);
    var later := Run(t', between);
    if Commits(later, second) {
      EditConsumesVersion(later, second, Next(later, second));
    }
  }
}
