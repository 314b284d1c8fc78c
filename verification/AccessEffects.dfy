/**
 When a transaction commits, exactly, in terms of who is strictly below whom in
 the tables before and after it; what it then changes; and which transactions
 undo each other.
 */
module AccessEffects {
  import opened Wrappers
  import opened Domain
  import opened Policy
  import opened AccessTables
  import opened AccessFrame
  import opened AccessInvariant

  // ----- acting on one user -----

  /** The sender is live, active, at the row's token version, and effectively holds the permission. */
  ghost predicate CurrentWith(t: Tables, ctx: Context, required: Permission) {
    && t.Live(ctx.userId) && t.users[ctx.userId].active && t.users[ctx.userId].tokenVersion == ctx.tokenVersion
    && required in t.Effective(ctx.userId).permissions
  }

  /** Full authority bounds effective authority, so a subject strictly below is always visible. */
  lemma BelowIsVisible(t: Tables, actor: AuthoritySnapshot, u: UserId)
    requires t.Live(u) && StrictlyBelow(actor, t.Full(u))
    ensures UserVisible(actor, t.Effective(u)) && UserVisible(actor, t.Full(u))
  {
    MoreRolesMoreAuthority(t.Effective(u), t.Full(u));
  }

  ghost predicate MayAdminister(t: Tables, ctx: Context, target: UserId, required: Permission) {
    CurrentWith(t, ctx, required) && t.Live(target) && StrictlyBelow(t.Effective(ctx.userId), t.Full(target))
  }

  /** What an administration decision asks of a full snapshot is that it is strictly below. */
  lemma AdministrationDecision(actor: AuthoritySnapshot, before: AuthoritySnapshot, required: Permission)
    ensures DecideUserAdministration(actor, before, required).Allow? <==>
            required in actor.permissions && actor.active && StrictlyBelow(actor, before)
  {
  }

  lemma TargetGate(t: Tables, ctx: Context, target: UserId, required: Permission)
    ensures MayAdminister(t, ctx, target, required) ==>
              ActorAndTarget(t, ctx, target, required) == Ok((t.Effective(ctx.userId), t.Full(target)))
    ensures ActorAndTarget(t, ctx, target, required).Ok? ==>
              CurrentWith(t, ctx, required) && t.Live(target)
              && ActorAndTarget(t, ctx, target, required).value == (t.Effective(ctx.userId), t.Full(target))
  {
    if MayAdminister(t, ctx, target, required) {
      BelowIsVisible(t, t.Effective(ctx.userId), target);
    }
    hide Build, Tables.GrantsOf, UserVisible, StrictlyBelow;
  }

  /** A status change commits exactly on targets strictly below a current actor. */
  lemma StatusChangeExact(t: Tables, ctx: Context, target: UserId, active: bool)
    ensures UpdateUserStatus(t, ctx, target, active).Ok? <==> MayAdminister(t, ctx, target, UsersStatusUpdate)
  {
    hide ActorAndTarget, DecideUserAdministration, StrictlyBelow, WithStatus, Tables.GrantsOf;
    TargetGate(t, ctx, target, UsersStatusUpdate);
    if t.Live(ctx.userId) && t.Live(target) {
      AdministrationDecision(t.Effective(ctx.userId), t.Full(target), UsersStatusUpdate);
    }
  }

  /** So does an administrative session revocation. */
  lemma SessionRevocationExact(t: Tables, ctx: Context, target: UserId)
    ensures RevokeUserSessions(t, ctx, target).Ok? <==> MayAdminister(t, ctx, target, UsersSessionsRevoke)
  {
    hide ActorAndTarget, DecideUserAdministration, StrictlyBelow, WithSessionsRevoked, Tables.GrantsOf;
    TargetGate(t, ctx, target, UsersSessionsRevoke);
    if t.Live(ctx.userId) && t.Live(target) {
      AdministrationDecision(t.Effective(ctx.userId), t.Full(target), UsersSessionsRevoke);
    }
  }

  /** And an administrative password reset, though it looks at full authority for visibility. */
  lemma PasswordResetExact(t: Tables, ctx: Context, target: UserId)
    ensures ResetUserPassword(t, ctx, target).Ok? <==> MayAdminister(t, ctx, target, UsersPasswordReset)
  {
    if t.Live(ctx.userId) && t.Live(target) {
      AdministrationDecision(t.Effective(ctx.userId), t.Full(target), UsersPasswordReset);
      if StrictlyBelow(t.Effective(ctx.userId), t.Full(target)) {
        BelowIsVisible(t, t.Effective(ctx.userId), target);
      }
    }
    hide DecideUserAdministration, StrictlyBelow, WithSessionsRevoked, Tables.GrantsOf, UserVisible;
  }

  // ----- binding roles -----

  ghost predicate Assignable(t: Tables, actor: AuthoritySnapshot, operation: RoleOperation, r: RoleId)
    requires r in t.roles
  {
    var role := t.GrantOf(r);
    && !role.isProtected && role.key != SuperAdminKey && !(operation == Unbind && role.key == UserKey)
    && (role.key == AdminKey ==> actor.isSuperAdmin) && WithinAuthority(actor, role.permissions) && role.tier < actor.tier
  }

  lemma ListedAssignable(t: Tables, actor: AuthoritySnapshot, operation: RoleOperation, ids: set<RoleId>, list: seq<RoleId>)
    requires (forall r :: r in list <==> r in ids) && forall r :: r in ids ==> r in t.roles
    ensures ChangedRolesCheck(operation, actor, GrantList(t, list)).Allow? <==>
            forall r :: r in ids ==> Assignable(t, actor, operation, r)
  {
    var grants := GrantList(t, list);
    ChangedRolesAllowed(operation, actor, grants);
    if ChangedRolesCheck(operation, actor, grants).Allow? {
      forall r | r in ids ensures Assignable(t, actor, operation, r) {
        var i :| 0 <= i < |list| && list[i] == r;
        assert grants[i] == t.GrantOf(r);
      }
    }
    if forall r :: r in ids ==> Assignable(t, actor, operation, r) {
      forall i | 0 <= i < |grants| ensures Assignable(t, actor, operation, list[i]) && grants[i] == t.GrantOf(list[i]) {
        assert list[i] in list;
      }
    }
  }

  lemma AssignableVisible(t: Tables, actor: AuthoritySnapshot, operation: RoleOperation, ids: set<RoleId>, list: seq<RoleId>)
    requires RolesWellShaped(t) && (forall r :: r in list <==> r in ids) && forall r :: r in ids ==> r in t.roles
    requires forall r :: r in ids ==> Assignable(t, actor, operation, r)
    ensures var grants := GrantList(t, list); forall i :: 0 <= i < |grants| ==> RoleVisible(actor, grants[i])
  {
    var grants := GrantList(t, list);
    forall i | 0 <= i < |grants| ensures RoleVisible(actor, grants[i]) {
      assert list[i] in list && RoleShape(t.roles[list[i]]) && Assignable(t, actor, operation, list[i]);
    }
  }

  lemma RolesOfChanged(t: Tables, operation: RoleOperation, target: UserId, ids: set<RoleId>)
    requires target in t.users
    ensures var t' := WithRolesChanged(t, operation, target, ChangedIds(t, operation, target, ids));
            && t'.RolesOf(target) == (if operation == Bind then t.RolesOf(target) + ids else t.RolesOf(target) - ids)
            && forall u :: u != target ==> t'.RolesOf(u) == t.RolesOf(u)
  {
    var t' := WithRolesChanged(t, operation, target, ChangedIds(t, operation, target, ids));
    var changed := ChangedIds(t, operation, target, ids);
    assert forall u, r :: (u, r) in t'.bindings <==>
             if operation == Bind then (u, r) in t.bindings || (u == target && r in changed)
             else (u, r) in t.bindings && !(u == target && r in changed);
    assert t'.RolesOf(target) == if operation == Bind then t.RolesOf(target) + ids else t.RolesOf(target) - ids;
    forall u | u != target ensures t'.RolesOf(u) == t.RolesOf(u) {
    }
  }

  lemma LimitIsCount(t: Tables, operation: RoleOperation, target: UserId, ids: set<RoleId>)
    requires Bounded(t) && target in t.users
    ensures var changed := ChangedIds(t, operation, target, ids);
            (operation == Unbind || changed == {} || |t.RolesOf(target)| + |changed| <= MAX_ROLES_PER_USER)
            <==> |WithRolesChanged(t, operation, target, changed).RolesOf(target)| <= MAX_ROLES_PER_USER
  {
    var held, changed := t.RolesOf(target), ChangedIds(t, operation, target, ids);
    RolesOfChanged(t, operation, target, ids);
    if operation == Bind {
      assert held + ids == held + changed;
      assert changed == {} ==> held + changed == held;
    } else {
      SmallerSet(held - ids, held);
    }
  }

  /** The committed tables a binding change would lead to. */
  ghost function AfterBinding(t: Tables, operation: RoleOperation, target: UserId, ids: set<RoleId>): Tables
    requires target in t.users
  {
    WithRolesChanged(t, operation, target, ChangedIds(t, operation, target, ids))
  }

  ghost predicate BindingSound(t: Tables, actor: AuthoritySnapshot, target: UserId, ids: set<RoleId>, operation: RoleOperation) {
    && t.Live(target) && (operation == Bind ==> t.users[target].active)
    && (forall r :: r in ids ==>
          && r in t.roles && !t.roles[r].deleted && (operation == Bind ==> t.roles[r].active || (target, r) in t.bindings)
          && Assignable(t, actor, operation, r))
    && StrictlyBelow(actor, t.Full(target))
    && StrictlyBelow(actor, AfterBinding(t, operation, target, ids).Full(target))
    && |AfterBinding(t, operation, target, ids).RolesOf(target)| <= MAX_ROLES_PER_USER
  }

  lemma DecisionExact(t: Tables, actor: AuthoritySnapshot, target: UserId, ids: set<RoleId>, list: seq<RoleId>,
                      operation: RoleOperation)
    requires t.Live(target) && (forall r :: r in list <==> r in ids) && (forall r :: r in list ==> r in t.roles)
    requires forall r :: r in ids ==> t.Counts(r, true)
    requires actor.active && (if operation == Bind then RolesAssign else RolesRevoke) in actor.permissions
    ensures DecideRoleChange(operation, actor, t.Full(target), Predicted(operation, t.Full(target), GrantList(t, list)),
                             GrantList(t, list)).Allow? <==>
            && (operation == Bind ==> t.users[target].active)
            && (forall r :: r in ids ==> Assignable(t, actor, operation, r))
            && StrictlyBelow(actor, t.Full(target)) && StrictlyBelow(actor, AfterBinding(t, operation, target, ids).Full(target))
  {
    var t' := AfterBinding(t, operation, target, ids);
    hide Predicted, GrantList, Assignable, ChangedRolesCheck, WithRolesChanged, ChangedIds, Tables.GrantsOf, WithinAuthority;
    ListedAssignable(t, actor, operation, ids, list);
    PredictedBindingCommitted(t, operation, target, ids, list, t');
    if ChangedRolesCheck(operation, actor, GrantList(t, list)).Allow? && !t.Full(target).isProtected {
      UnprotectedAfterChange(t, operation, target, ids, list, actor, t');
    }
    hide Tables.Counts;
  }

  lemma ListedGate(t: Tables, actor: AuthoritySnapshot, target: UserId, ids: set<RoleId>, list: seq<RoleId>,
                   operation: RoleOperation)
    requires t.Live(target) && forall r :: r in list ==> r in t.roles
    ensures ChangeListedRoles(t, actor, target, ids, list, operation).Ok? <==>
            var grants, changed := GrantList(t, list), ChangedIds(t, operation, target, ids);
            && (forall i :: 0 <= i < |grants| ==> RoleVisible(actor, grants[i]))
            && DecideRoleChange(operation, actor, t.Full(target), Predicted(operation, t.Full(target), grants), grants).Allow?
            && (operation == Unbind || changed == {} || |t.RolesOf(target)| + |changed| <= MAX_ROLES_PER_USER)
  {
    hide DecideRoleChange, Predicted, GrantList, WithRolesChanged, ChangedIds, RoleVisible, Tables.GrantsOf, Tables.RolesOf,
         Tables.Snapshot;
  }

  lemma ListedExact(t: Tables, actor: AuthoritySnapshot, target: UserId, ids: set<RoleId>, list: seq<RoleId>,
                    operation: RoleOperation)
    requires RolesWellShaped(t) && Bounded(t)
    requires t.Live(target) && (forall r :: r in list <==> r in ids) && (forall r :: r in list ==> r in t.roles)
    requires forall r :: r in ids ==> Requestable(t, operation, target, r)
    requires actor.active && (if operation == Bind then RolesAssign else RolesRevoke) in actor.permissions
    ensures ChangeListedRoles(t, actor, target, ids, list, operation).Ok? <==> BindingSound(t, actor, target, ids, operation)
  {
    assert forall r :: r in ids ==> t.Counts(r, true);
    hide *;
    ListedGate(t, actor, target, ids, list, operation);
    DecisionExact(t, actor, target, ids, list, operation);
    LimitIsCount(t, operation, target, ids);
    if forall r :: r in ids ==> Assignable(t, actor, operation, r) {
      AssignableVisible(t, actor, operation, ids, list);
    }
    BindingSoundParts(t, actor, target, ids, operation);
  }

  lemma BindingSoundParts(t: Tables, actor: AuthoritySnapshot, target: UserId, ids: set<RoleId>, operation: RoleOperation)
    requires t.Live(target) && forall r :: r in ids ==> Requestable(t, operation, target, r)
    ensures (forall r :: r in ids ==> r in t.roles) && target in t.users
    ensures BindingSound(t, actor, target, ids, operation) <==>
            && (operation == Bind ==> t.users[target].active)
            && (forall r :: r in ids ==> Assignable(t, actor, operation, r))
            && StrictlyBelow(actor, t.Full(target)) && StrictlyBelow(actor, AfterBinding(t, operation, target, ids).Full(target))
            && |WithRolesChanged(t, operation, target, ChangedIds(t, operation, target, ids)).RolesOf(target)| <= MAX_ROLES_PER_USER
  {
    hide Assignable, StrictlyBelow, WithRolesChanged, ChangedIds, Tables.GrantsOf, Tables.RolesOf, Tables.Snapshot;
  }

  /**
   A role binding commits exactly when a current actor asks for assignable
   roles and the target is strictly below the actor with at most ten roles,
   both in the tables before and in the tables the change leads to.
   */
  lemma RoleBindingExact(t: Tables, ctx: Context, target: UserId, ids: set<RoleId>, operation: RoleOperation)
    requires Inv(t)
    ensures ChangeUserRoles(t, ctx, target, ids, operation).Ok? <==>
            && ids != {} && CurrentWith(t, ctx, if operation == Bind then RolesAssign else RolesRevoke)
            && BindingSound(t, t.Effective(ctx.userId), target, ids, operation)
  {
    var required := if operation == Bind then RolesAssign else RolesRevoke;
    hide ChangeListedRoles, ActorAndTarget, Assignable, StrictlyBelow, WithRolesChanged, ChangedIds, RolesWellShaped, Bounded,
         Tables.GrantsOf, RowsResolve, GrantsSound, OneSuperAdmin, Requestable;
    TargetGate(t, ctx, target, required);
    AscendingMembers(ids);
    RequestableMeans(t, operation, target, ids);
    if CurrentWith(t, ctx, required) && t.Live(target) && forall r :: r in ids ==> Requestable(t, operation, target, r) {
      RequestableExists(t, operation, target, ids);
      ListedExact(t, t.Effective(ctx.userId), target, ids, Ascending(ids), operation);
    }
  }

  lemma RequestableExists(t: Tables, operation: RoleOperation, target: UserId, ids: set<RoleId>)
    requires forall r :: r in ids ==> Requestable(t, operation, target, r)
    ensures forall r :: r in ids ==> r in t.roles
  {
  }

  lemma RequestableMeans(t: Tables, operation: RoleOperation, target: UserId, ids: set<RoleId>)
    ensures forall r :: r in ids ==>
              (Requestable(t, operation, target, r) <==>
               r in t.roles && !t.roles[r].deleted && (operation == Bind ==> t.roles[r].active || (target, r) in t.bindings))
  {
  }

  lemma BindingCommit(t: Tables, ctx: Context, target: UserId, ids: set<RoleId>, operation: RoleOperation, t': Tables)
    requires ChangeUserRoles(t, ctx, target, ids, operation) == Ok(t')
    ensures target in t.users && t' == AfterBinding(t, operation, target, ids)
  {
    hide DecideRoleChange, Predicted, UserVisible, RoleVisible, Build, Tables.GrantsOf, WithRolesChanged, ChangedIds;
  }

  lemma BindingsRestored(t: Tables, target: UserId, ids: set<RoleId>)
    requires target in t.users && ids * t.RolesOf(target) == {} && ids != {}
    ensures var bound := AfterBinding(t, Bind, target, ids);
            target in bound.users
            && var back := AfterBinding(bound, Unbind, target, ids);
               && back.bindings == t.bindings && back.roles == t.roles && back.grants == t.grants
               && target in back.users
               && back.users[target] == t.users[target].(authzVersion := t.users[target].authzVersion + 2)
  {
    var bound := AfterBinding(t, Bind, target, ids);
    var pairs := Pairs(target, ids);
    forall r | r in ids ensures r !in t.RolesOf(target) {
      assert r !in ids * t.RolesOf(target);
    }
    assert ids - t.RolesOf(target) == ids;
    RolesOfChanged(t, Bind, target, ids);
    assert ids * (t.RolesOf(target) + ids) == ids;
    assert ChangedIds(bound, Unbind, target, ids) == ids;
    forall b | b in pairs ensures b !in t.bindings {
      assert b == (b.0, b.1) && b.0 == target && b.1 in ids;
      assert b.1 !in t.RolesOf(target);
    }
    assert t.bindings + pairs - pairs == t.bindings;
  }

  /** Unbinding what was just bound restores every binding and the target's row but for its authority version. */
  lemma UnbindUndoesBind(t: Tables, first: Context, second: Context, target: UserId, ids: set<RoleId>, bound: Tables, back: Tables)
    requires target in t.users && ids * t.RolesOf(target) == {}
    requires ChangeUserRoles(t, first, target, ids, Bind) == Ok(bound)
    requires ChangeUserRoles(bound, second, target, ids, Unbind) == Ok(back)
    ensures back.bindings == t.bindings && back.roles == t.roles && back.grants == t.grants
    ensures back.users == t.users[target := t.users[target].(authzVersion := t.users[target].authzVersion + 2)]
  {
    hide ChangeListedRoles, ActorAndTarget;
    BindingCommit(t, first, target, ids, Bind, bound);
    BindingCommit(bound, second, target, ids, Unbind, back);
    assert ids != {};
    hide ChangeUserRoles;
    BindingsRestored(t, target, ids);
    hide ChangedIds;
  }

  // ----- shared roles -----

  ghost predicate MayTouchRole(t: Tables, ctx: Context, id: RoleId, required: Permission, includeDisabled: bool) {
    CurrentWith(t, ctx, required) && t.Counts(id, includeDisabled) && !t.roles[id].isSystem
    && t.roles[id].tier < t.Effective(ctx.userId).tier
    && WithinAuthority(t.Effective(ctx.userId), t.PermissionsOf(id))
  }

  /** Only built-in roles are protected, so a custom role below the actor is always visible. */
  lemma LockExact(t: Tables, ctx: Context, id: RoleId, required: Permission, includeDisabled: bool)
    requires RolesWellShaped(t)
    ensures LockSharedRole(t, ctx, id, required, includeDisabled).Ok? ==>
              CurrentWith(t, ctx, required) && t.Counts(id, includeDisabled)
              && LockSharedRole(t, ctx, id, required, includeDisabled).value
                 == SharedRole(t.Effective(ctx.userId), t.GrantOf(id), t.HoldersOf(id))
    ensures MayTouchRole(t, ctx, id, required, includeDisabled) ==> LockSharedRole(t, ctx, id, required, includeDisabled).Ok?
  {
    assert id in t.roles ==> RoleShape(t.roles[id]);
    hide RolesWellShaped, Build, Tables.GrantsOf, Tables.HoldersOf, Tables.PermissionsOf, WithinAuthority;
  }

  /** The scan over the holders' snapshots allows exactly when every live holder is strictly below. */
  lemma HoldersExact(t: Tables, id: RoleId, actor: AuthoritySnapshot)
    ensures AffectedManageable(actor, Affected(t, id)).Allow? <==>
            forall u :: u in t.HoldersOf(id) ==> StrictlyBelow(actor, t.Full(u))
  {
    if AffectedManageable(actor, Affected(t, id)).Allow? {
      AffectedStrictlyBelow(t, id, actor);
    }
    AscendingMembers(t.HoldersOf(id));
    AffectedManageableIff(actor, Affected(t, id));
    hide StrictlyBelow, AffectedManageable, Tables.Snapshot;
    var list := Ascending(t.HoldersOf(id));
    assert forall i :: 0 <= i < |list| ==> list[i] in t.HoldersOf(id) && Affected(t, id)[i] == t.Full(list[i]);
  }

  lemma NotBelowOneself(t: Tables, actor: AuthoritySnapshot)
    requires actor.userId in t.users
    ensures !StrictlyBelow(actor, t.Full(actor.userId))
  {
  }

  lemma EffectiveFacts(t: Tables, u: UserId)
    requires u in t.users
    ensures t.Effective(u).userId == u && t.Effective(u).active == t.users[u].active
  {
  }

  lemma AdministerExact(t: Tables, actor: AuthoritySnapshot, id: RoleId, operation: Administration)
    requires id in t.roles && t.Live(actor.userId) && actor == t.Effective(actor.userId) && actor.active
    requires RequiredFor(operation) in actor.permissions
    ensures Administer(t, SharedRole(actor, t.GrantOf(id), t.HoldersOf(id)), operation).Pass? <==>
            && !t.roles[id].isSystem && t.roles[id].tier < actor.tier && WithinAuthority(actor, t.PermissionsOf(id))
            && forall u :: u in t.HoldersOf(id) ==> StrictlyBelow(actor, t.Full(u))
  {
    hide AffectedManageable, Affected, WithinAuthority, Tables.GrantsOf, Tables.HoldersOf;
    HoldersExact(t, id, actor);
    NotBelowOneself(t, actor);
    hide StrictlyBelow, Tables.Snapshot;
  }

  ghost predicate MayAdministerRole(t: Tables, ctx: Context, id: RoleId, required: Permission, expected: nat) {
    MayTouchRole(t, ctx, id, required, true) && t.roles[id].version == expected
    && forall u :: u in t.HoldersOf(id) ==> StrictlyBelow(t.Effective(ctx.userId), t.Full(u))
  }

  /**
   Renaming, enabling, disabling and deleting a role commit exactly when a
   current actor names the role's present version, the role is a custom one
   within the actor's authority, and every live holder is strictly below.
   */
  lemma RoleAdministrationExact(t: Tables, ctx: Context, id: RoleId, name: Option<string>, description: Option<string>,
                                active: bool, expected: nat)
    requires Inv(t)
    ensures UpdateRole(t, ctx, id, name, description, expected).Ok? <==> MayAdministerRole(t, ctx, id, RolesUpdate, expected)
    ensures SetRoleActive(t, ctx, id, active, expected).Ok? <==> MayAdministerRole(t, ctx, id, RolesStatusUpdate, expected)
    ensures SoftDeleteRole(t, ctx, id, expected).Ok? <==> MayAdministerRole(t, ctx, id, RolesDelete, expected)
  {
    hide LockSharedRole, Administer, StrictlyBelow, RolesWellShaped, RowsResolve, GrantsSound, Bounded, OneSuperAdmin;
    hide WithRoleRenamed, WithRoleActive, WithoutRole, WithinAuthority, Tables.GrantsOf, Tables.HoldersOf, Build;
    LockExact(t, ctx, id, RolesUpdate, true);
    LockExact(t, ctx, id, RolesStatusUpdate, true);
    LockExact(t, ctx, id, RolesDelete, true);
    if id in t.roles && t.Live(ctx.userId) && t.users[ctx.userId].active {
      var actor := t.Effective(ctx.userId);
      EffectiveFacts(t, ctx.userId);
      if RolesUpdate in actor.permissions {
        AdministerExact(t, actor, id, Update);
      }
      if RolesStatusUpdate in actor.permissions {
        AdministerExact(t, actor, id, Enable);
        AdministerExact(t, actor, id, Disable);
      }
      if RolesDelete in actor.permissions {
        AdministerExact(t, actor, id, Delete);
      }
    }
  }

  lemma HolderAfterExact(t: Tables, id: RoleId, actor: AuthoritySnapshot, keys: set<Permission>, u: UserId)
    requires t.Counts(id, true) && u in t.HoldersOf(id)
    ensures u in WithPermissions(t, id, keys).users
    ensures StrictlyBelow(actor, WithPermissions(t, id, keys).Full(u)) <==>
            StrictlyBelow(actor, t.Full(u).WithRole(t.GrantOf(id).(permissions := keys)))
  {
    PredictedPermissionsCommitted(t, id, keys, u, WithPermissions(t, id, keys));
    hide WithPermissions, AuthoritySnapshot.WithRole, WithinAuthority;
  }

  lemma ScanAfterExact(t: Tables, id: RoleId, actor: AuthoritySnapshot, replacement: RoleGrant)
    ensures AffectedManageable(actor, WithRoleEach(Affected(t, id), replacement)).Allow? <==>
            forall u :: u in t.HoldersOf(id) ==> StrictlyBelow(actor, t.Full(u).WithRole(replacement))
  {
    var after := WithRoleEach(Affected(t, id), replacement);
    AscendingMembers(t.HoldersOf(id));
    AffectedManageableIff(actor, after);
    if AffectedManageable(actor, after).Allow? {
      AffectedAfterStrictlyBelow(t, id, actor, replacement);
    }
    hide StrictlyBelow, AffectedManageable, Tables.Snapshot, AuthoritySnapshot.WithRole;
    var list := Ascending(t.HoldersOf(id));
    assert forall i :: 0 <= i < |list| ==> list[i] in t.HoldersOf(id) && after[i] == t.Full(list[i]).WithRole(replacement);
  }

  /** The permissions a request would leave the role with. */
  ghost function RequestedAfter(t: Tables, id: RoleId, requested: set<PermissionId>, operation: RoleOperation): set<Permission>
    requires requested <= t.catalog.Keys
  {
    PermissionsAfter(operation, t.PermissionsOf(id), set p | p in requested :: t.catalog[p])
  }

  ghost predicate PermissionsSound(t: Tables, actor: AuthoritySnapshot, id: RoleId, after: set<Permission>)
    requires id in t.roles
  {
    && after <= SUPER_ADMIN_PERMISSIONS && RegistrationConfigure !in after && after <= actor.permissions
    && forall u :: u in t.HoldersOf(id) ==>
         u in WithPermissions(t, id, after).users && StrictlyBelow(actor, WithPermissions(t, id, after).Full(u))
  }

  lemma PermissionsDecisionExact(t: Tables, actor: AuthoritySnapshot, id: RoleId, operation: RoleOperation, after: set<Permission>)
    requires t.Counts(id, true) && t.Live(actor.userId) && actor.active
    requires (if operation == Bind then RolesPermissionsBind else RolesPermissionsUnbind) in actor.permissions
    ensures AdministerPermissions(t, SharedRole(actor, t.GrantOf(id), t.HoldersOf(id)), operation, after).Pass? <==>
            && !t.roles[id].isSystem && t.roles[id].tier < actor.tier && WithinAuthority(actor, t.PermissionsOf(id))
            && PermissionsSound(t, actor, id, after)
  {
    hide AffectedManageable, Affected, WithinAuthority, Tables.GrantsOf, Tables.HoldersOf, WithPermissions, WithRoleEach;
    ScanAfterExact(t, id, actor, t.GrantOf(id).(permissions := after));
    forall u | u in t.HoldersOf(id)
      ensures u in WithPermissions(t, id, after).users
      ensures StrictlyBelow(actor, WithPermissions(t, id, after).Full(u)) <==>
              StrictlyBelow(actor, t.Full(u).WithRole(t.GrantOf(id).(permissions := after)))
    {
      HolderAfterExact(t, id, actor, after, u);
    }
    HolderIsNotActor(t, actor, id, after);
    hide StrictlyBelow, Tables.Snapshot, AuthoritySnapshot.WithRole;
  }

  lemma HolderIsNotActor(t: Tables, actor: AuthoritySnapshot, id: RoleId, after: set<Permission>)
    requires id in t.roles && actor.userId in t.users
    ensures !StrictlyBelow(actor, t.Full(actor.userId).WithRole(t.GrantOf(id).(permissions := after)))
  {
  }

  /**
   A change of a role's permissions commits exactly when a current actor names
   the present version of an enabled custom role within the actor's authority,
   the resulting set is inside it too, and every live holder is strictly below
   in the tables the change leads to.
   */
  lemma RolePermissionsExact(t: Tables, ctx: Context, id: RoleId, requested: set<PermissionId>, operation: RoleOperation,
                             expected: nat)
    requires Inv(t)
    ensures ChangeRolePermissions(t, ctx, id, requested, operation, expected).Ok? <==>
            && requested != {} && requested <= t.catalog.Keys
            && (forall p :: p in requested ==> t.catalog[p] in SUPER_ADMIN_PERMISSIONS)
            && MayTouchRole(t, ctx, id, if operation == Bind then RolesPermissionsBind else RolesPermissionsUnbind, false)
            && t.roles[id].version == expected
            && PermissionsSound(t, t.Effective(ctx.userId), id, RequestedAfter(t, id, requested, operation))
  {
    hide LockSharedRole, AdministerPermissions, PermissionsSound, RolesWellShaped, RowsResolve, GrantsSound, Bounded, OneSuperAdmin;
    hide WithPermissions, WithinAuthority, Tables.GrantsOf, Tables.HoldersOf, Build;
    var required := if operation == Bind then RolesPermissionsBind else RolesPermissionsUnbind;
    LockExact(t, ctx, id, required, false);
    if id in t.roles && CurrentWith(t, ctx, required) && t.Counts(id, false) && requested <= t.catalog.Keys {
      EffectiveFacts(t, ctx.userId);
      PermissionsDecisionExact(t, t.Effective(ctx.userId), id, operation, RequestedAfter(t, id, requested, operation));
    }
  }

  /** After a permissions change the role has exactly the old permissions with the requested ones added or removed. */
  lemma RolePermissionsDelivered(t: Tables, ctx: Context, id: RoleId, requested: set<PermissionId>, operation: RoleOperation,
                                 expected: nat, t': Tables)
    requires ChangeRolePermissions(t, ctx, id, requested, operation, expected) == Ok(t')
    ensures requested <= t.catalog.Keys
    ensures forall p :: p in t'.PermissionsOf(id) <==>
              if operation == Bind then p in t.PermissionsOf(id) || exists q :: q in requested && t.catalog[q] == p
              else p in t.PermissionsOf(id) && !exists q :: q in requested && t.catalog[q] == p
    ensures forall r :: r != id ==> t'.PermissionsOf(r) == t.PermissionsOf(r)
  {
    hide DecideRolePermissionsChange, RoleVisible, Build, Tables.GrantsOf, Affected, WithRoleEach, Bumped;
    var keys := set p | p in requested :: t.catalog[p];
    var after := PermissionsAfter(operation, t.PermissionsOf(id), keys);
    assert t' == WithPermissions(t, id, after);
    assert forall r, p :: (r, p) in t'.grants <==> if r == id then p in after else (r, p) in t.grants;
    forall r | r != id ensures t'.PermissionsOf(r) == t.PermissionsOf(r) {
      assert forall p :: p in t'.PermissionsOf(r) <==> p in t.PermissionsOf(r);
    }
  }

  lemma ActiveCommit(t: Tables, ctx: Context, id: RoleId, active: bool, expected: nat, t': Tables)
    requires SetRoleActive(t, ctx, id, active, expected) == Ok(t')
    ensures id in t.roles && t' == WithRoleActive(t, id, active)
  {
    hide Administer, RoleVisible, Build, WithRoleActive, Tables.GrantsOf;
  }

  lemma DisabledThenEnabled(t: Tables, id: RoleId, u: UserId)
    requires id in t.roles && t.roles[id].active
    ensures var off := WithRoleActive(t, id, false);
            && id !in off.GrantsOf(u, false) && off.GrantsOf(u, true) == t.GrantsOf(u, true)
            && id in off.roles && WithRoleActive(off, id, true).GrantsOf(u, false) == t.GrantsOf(u, false)
  {
    hide Bumped;
    var off := WithRoleActive(t, id, false);
    var on := WithRoleActive(off, id, true);
    forall r | r in t.roles ensures off.GrantOf(r) == t.GrantOf(r) && on.GrantOf(r) == t.GrantOf(r) {
      SameGrant(t, off, r);
      SameGrant(t, on, r);
    }
    hide Tables.GrantOf;
    SameGrants(t, off, u, true);
    SameGrants(t, on, u, false);
  }

  /** Disabling a role takes it from everybody's effective grants only, and enabling it again restores them all. */
  lemma EnableUndoesDisable(t: Tables, first: Context, second: Context, id: RoleId, v: nat, w: nat, off: Tables, on: Tables)
    requires id in t.roles && t.roles[id].active
    requires SetRoleActive(t, first, id, false, v) == Ok(off)
    requires SetRoleActive(off, second, id, true, w) == Ok(on)
    ensures forall u: UserId :: id !in off.GrantsOf(u, false) && off.GrantsOf(u, true) == t.GrantsOf(u, true)
    ensures forall u: UserId :: on.GrantsOf(u, false) == t.GrantsOf(u, false)
  {
    hide SetRoleActive, WithRoleActive, Tables.GrantsOf;
    ActiveCommit(t, first, id, false, v, off);
    ActiveCommit(off, second, id, true, w, on);
    forall u: UserId ensures id !in off.GrantsOf(u, false) && off.GrantsOf(u, true) == t.GrantsOf(u, true)
                             && on.GrantsOf(u, false) == t.GrantsOf(u, false)
    {
      DisabledThenEnabled(t, id, u);
    }
  }

  lemma DeletionCommit(t: Tables, ctx: Context, id: RoleId, expected: nat, t': Tables)
    requires SoftDeleteRole(t, ctx, id, expected) == Ok(t')
    ensures id in t.roles && t' == WithoutRole(t, id)
  {
    hide Administer, RoleVisible, Build, WithoutRole, Tables.GrantsOf;
  }

  lemma DeletionKeepsGrant(t: Tables, id: RoleId, r: RoleId)
    requires id in t.roles && r in t.roles && r != id
    ensures r in WithoutRole(t, id).roles && WithoutRole(t, id).GrantOf(r) == t.GrantOf(r)
  {
    hide Bumped, Tables.GrantOf;
    SameGrant(t, WithoutRole(t, id), r);
  }

  lemma DeletedGrants(t: Tables, id: RoleId, u: UserId, includeDisabled: bool)
    requires id in t.roles
    ensures WithoutRole(t, id).GrantsOf(u, includeDisabled) == t.GrantsOf(u, includeDisabled) - {id}
  {
    hide Bumped, Tables.GrantOf, Tables.PermissionsOf;
    var t' := WithoutRole(t, id);
    assert t'.roles.Keys == t.roles.Keys;
    assert forall r :: r in t'.RolesOf(u) <==> r in t.RolesOf(u) && r != id;
    assert forall r :: r != id ==> t'.Counts(r, includeDisabled) == t.Counts(r, includeDisabled);
    hide WithoutRole, Tables.Counts;
    forall r | r in t.roles && r != id ensures t'.GrantOf(r) == t.GrantOf(r) {
      DeletionKeepsGrant(t, id, r);
    }
  }

  /** Deleting a role leaves no binding or grant of it, and everyone's other grants as they were. */
  lemma DeletionDelivered(t: Tables, ctx: Context, id: RoleId, expected: nat, t': Tables)
    requires SoftDeleteRole(t, ctx, id, expected) == Ok(t')
    ensures t'.HoldersOf(id) == {} && t'.PermissionsOf(id) == {} && !t'.Counts(id, true)
    ensures forall u: UserId :: t'.GrantsOf(u, false) == t.GrantsOf(u, false) - {id}
    ensures forall u: UserId :: t'.GrantsOf(u, true) == t.GrantsOf(u, true) - {id}
  {
    hide SoftDeleteRole, Tables.GrantsOf, Bumped;
    DeletionCommit(t, ctx, id, expected, t');
    assert forall u: UserId :: (u, id) !in t'.bindings;
    assert forall p :: (id, p) !in t'.grants;
    hide WithoutRole;
    forall u: UserId
      ensures t'.GrantsOf(u, false) == t.GrantsOf(u, false) - {id} && t'.GrantsOf(u, true) == t.GrantsOf(u, true) - {id}
    {
      DeletedGrants(t, id, u, false);
      DeletedGrants(t, id, u, true);
    }
  }
}
