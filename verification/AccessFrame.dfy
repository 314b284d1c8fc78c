/**
 What one committed transaction can do to anybody's authority: the snapshot
 the policy judged is the one the committed tables rebuild, and everyone but
 strictly lower subjects is left exactly as they were.
 */
module AccessFrame {
  import opened Wrappers
  import opened Domain
  import opened Policy
  import opened AccessTables

  // ----- when two tables give a user the same grants -----

  lemma SameGrants(t: Tables, t': Tables, u: UserId, includeDisabled: bool)
    requires forall r :: (u, r) in t.bindings <==> (u, r) in t'.bindings
    requires forall r :: (u, r) in t.bindings ==> t.Counts(r, includeDisabled) == t'.Counts(r, includeDisabled)
    requires forall r :: (u, r) in t.bindings && t.Counts(r, includeDisabled) ==> r in t'.roles && t.GrantOf(r) == t'.GrantOf(r)
    ensures t.RolesOf(u) == t'.RolesOf(u)
    ensures t.GrantsOf(u, includeDisabled) == t'.GrantsOf(u, includeDisabled)
  {
    assert t.RolesOf(u) == t'.RolesOf(u);
  }

  lemma SameGrant(t: Tables, t': Tables, r: RoleId)
    requires r in t.roles && r in t'.roles
    requires t'.roles[r].(version := t.roles[r].version, active := t.roles[r].active, name := t.roles[r].name,
                          description := t.roles[r].description) == t.roles[r]
    requires forall p :: (r, p) in t.grants <==> (r, p) in t'.grants
    ensures t.GrantOf(r) == t'.GrantOf(r)
  {
    assert t.PermissionsOf(r) == t'.PermissionsOf(r);
  }

  /** Nothing about the user differs between two tables. */
  ghost predicate Untouched(t: Tables, t': Tables, u: UserId)
    requires u in t.users && u in t'.users
  {
    && t'.users[u] == t.users[u]
    && t'.RolesOf(u) == t.RolesOf(u)
    && t'.Full(u) == t.Full(u)
    && t'.Effective(u) == t.Effective(u)
  }

  ghost predicate Contained(actor: AuthoritySnapshot, t: Tables, t': Tables) {
    forall u :: t.Live(u) ==>
      && t'.Live(u)
      && (Untouched(t, t', u) || (StrictlyBelow(actor, t.Full(u)) && StrictlyBelow(actor, t'.Full(u))))
  }

  // ----- transactions on one user row -----

  lemma UserRowChanged(t: Tables, t': Tables, target: UserId)
    requires target in t.users && target in t'.users
    requires t'.users == t.users[target := t'.users[target]]
    requires t'.users[target].isProtected == t.users[target].isProtected
    requires t'.roles == t.roles && t'.bindings == t.bindings && t'.grants == t.grants
    ensures forall u :: u in t.users && u != target ==> Untouched(t, t', u)
    ensures forall d :: t'.Snapshot(target, d) ==
                        t.Snapshot(target, d).(active := t'.users[target].active,
                                               tokenVersion := t'.users[target].tokenVersion,
                                               authzVersion := t'.users[target].authzVersion)
  {
    forall r | r in t.roles ensures t.GrantOf(r) == t'.GrantOf(r) {
      SameGrant(t, t', r);
    }
    forall u, d | u in t.users ensures t.GrantsOf(u, d) == t'.GrantsOf(u, d) && t.RolesOf(u) == t'.RolesOf(u) {
      SameGrants(t, t', u, d);
    }
  }

  lemma UserAdministrationContained(actor: AuthoritySnapshot, t: Tables, t': Tables, target: UserId, required: Permission)
    requires t.Live(target) && target in t'.users && !t'.users[target].deleted
    requires t'.users == t.users[target := t'.users[target]]
    requires t'.users[target].isProtected == t.users[target].isProtected
    requires t'.roles == t.roles && t'.bindings == t.bindings && t'.grants == t.grants
    requires DecideUserAdministration(actor, t.Full(target), required).Allow?
    ensures Contained(actor, t, t')
  {
    UserRowChanged(t, t', target);
    assert t'.Full(target) == t'.Snapshot(target, true);
    assert StrictlyBelow(actor, t.Full(target));
  }

  // ----- binding and unbinding roles -----

  ghost function RolesAfter(operation: RoleOperation, held: map<RoleId, RoleGrant>, grants: seq<RoleGrant>)
    : map<RoleId, RoleGrant>
    decreases |grants|
  {
    if grants == [] then held
    else RolesAfter(operation,
                    if operation == Bind then held[grants[0].roleId := grants[0]] else held - {grants[0].roleId},
                    grants[1..])
  }

  lemma {:induction false} PredictedReplacesRoles(operation: RoleOperation, before: AuthoritySnapshot, grants: seq<RoleGrant>)
    requires before == before.ReplaceRoles(before.roles)
    ensures Predicted(operation, before, grants) == before.ReplaceRoles(RolesAfter(operation, before.roles, grants))
    decreases |grants|
  {
    if grants != [] {
      var next := if operation == Bind then before.WithRole(grants[0]) else before.WithoutRole(grants[0].roleId);
      PredictedReplacesRoles(operation, next, grants[1..]);
    }
  }

  /** The grants a user ends with: those of the held ids with the listed ones added or removed. */
  function FinalGrants(t: Tables, operation: RoleOperation, held: set<RoleId>, ids: set<RoleId>): map<RoleId, RoleGrant> {
    map r | r in t.roles && (if operation == Bind then r in held || r in ids else r in held && r !in ids) :: t.GrantOf(r)
  }

  function Members(ids: seq<RoleId>): set<RoleId> {
    set r | r in ids
  }

  /** Adding or removing grants one at a time ends at the grants of the final id set. */
  lemma {:induction false} RolesAfterAreFinal(t: Tables, operation: RoleOperation, held: map<RoleId, RoleGrant>,
                                              ids: seq<RoleId>)
    requires forall r :: r in held ==> r in t.roles && held[r] == t.GrantOf(r)
    requires forall r :: r in ids ==> r in t.roles
    ensures RolesAfter(operation, held, GrantList(t, ids)) == FinalGrants(t, operation, held.Keys, Members(ids))
    decreases |ids|
  {
    if ids == [] {
      assert FinalGrants(t, operation, held.Keys, Members(ids)) == held;
    } else {
      var g := t.GrantOf(ids[0]);
      var next := if operation == Bind then held[g.roleId := g] else held - {g.roleId};
      assert GrantList(t, ids)[0] == g && GrantList(t, ids)[1..] == GrantList(t, ids[1..]);
      RolesAfterAreFinal(t, operation, next, ids[1..]);
      FinalGrantsStep(t, operation, held.Keys, next.Keys, ids);
    }
  }

  lemma FinalGrantsStep(t: Tables, operation: RoleOperation, held: set<RoleId>, next: set<RoleId>, ids: seq<RoleId>)
    requires ids != []
    requires next == if operation == Bind then held + {ids[0]} else held - {ids[0]}
    ensures FinalGrants(t, operation, next, Members(ids[1..])) == FinalGrants(t, operation, held, Members(ids))
  {
    assert Members(ids) == Members(ids[1..]) + {ids[0]};
  }

  lemma BindingsCommitted(t: Tables, operation: RoleOperation, target: UserId, ids: set<RoleId>, r: RoleId)
    requires target in t.users
    ensures (target, r) in WithRolesChanged(t, operation, target, ChangedIds(t, operation, target, ids)).bindings <==>
            if operation == Bind then (target, r) in t.bindings || r in ids else (target, r) in t.bindings && r !in ids
  {
    assert r in ChangedIds(t, operation, target, ids) <==>
           r in ids && ((target, r) in t.bindings <==> operation == Unbind);
  }

  lemma FinalGrantsCommitted(t: Tables, operation: RoleOperation, target: UserId, ids: set<RoleId>)
    requires target in t.users
    requires forall r :: r in ids ==> t.Counts(r, true)
    ensures WithRolesChanged(t, operation, target, ChangedIds(t, operation, target, ids)).GrantsOf(target, true) ==
            FinalGrants(t, operation, t.GrantsOf(target, true).Keys, ids)
  {
    var t' := WithRolesChanged(t, operation, target, ChangedIds(t, operation, target, ids));
    forall r | r in t.roles ensures t'.GrantOf(r) == t.GrantOf(r) {
      SameGrant(t, t', r);
    }
    assert t'.roles == t.roles;
    forall r
      ensures (target, r) in t'.bindings <==>
              if operation == Bind then (target, r) in t.bindings || r in ids
              else (target, r) in t.bindings && r !in ids
    {
      BindingsCommitted(t, operation, target, ids, r);
    }
    hide WithRolesChanged, ChangedIds, Tables.GrantOf;
    assert t'.GrantsOf(target, true).Keys == FinalGrants(t, operation, t.GrantsOf(target, true).Keys, ids).Keys;
  }

  /**
   The snapshot the policy judges for a role binding change is the target's
   full authority rebuilt from the committed tables, up to the version stamp.
   */
  lemma PredictedBindingCommitted(t: Tables, operation: RoleOperation, target: UserId, ids: set<RoleId>, list: seq<RoleId>,
                                  t': Tables)
    requires target in t.users
    requires forall r :: r in ids ==> t.Counts(r, true)
    requires forall r :: r in list ==> r in t.roles
    requires forall r :: r in list <==> r in ids
    requires t' == WithRolesChanged(t, operation, target, ChangedIds(t, operation, target, ids))
    ensures t'.Full(target) ==
            Predicted(operation, t.Full(target), GrantList(t, list)).(authzVersion := t'.users[target].authzVersion)
  {
    var before := t.Full(target);
    PredictedReplacesRoles(operation, before, GrantList(t, list));
    RolesAfterAreFinal(t, operation, before.roles, list);
    assert Members(list) == ids;
    FinalGrantsCommitted(t, operation, target, ids);
    assert t'.GrantsOf(target, true) == RolesAfter(operation, before.roles, GrantList(t, list));
  }

  lemma RolesChangedFrame(t: Tables, operation: RoleOperation, target: UserId, changed: set<RoleId>)
    requires target in t.users
    ensures var t' := WithRolesChanged(t, operation, target, changed);
            forall u :: u in t.users && u != target ==> Untouched(t, t', u)
  {
    var t' := WithRolesChanged(t, operation, target, changed);
    forall r | r in t.roles ensures t'.GrantOf(r) == t.GrantOf(r) {
      SameGrant(t, t', r);
    }
    forall u, d | u in t.users && u != target ensures t.GrantsOf(u, d) == t'.GrantsOf(u, d) && t.RolesOf(u) == t'.RolesOf(u) {
      SameGrants(t, t', u, d);
    }
  }

  /** Allowed role changes cannot make the target protected. */
  lemma UnprotectedAfterChange(t: Tables, operation: RoleOperation, target: UserId, ids: set<RoleId>, list: seq<RoleId>,
                               actor: AuthoritySnapshot, t': Tables)
    requires target in t.users && !t.Full(target).isProtected
    requires forall r :: r in ids ==> t.Counts(r, true)
    requires forall r :: r in list ==> r in t.roles
    requires forall r :: r in list <==> r in ids
    requires ChangedRolesCheck(operation, actor, GrantList(t, list)).Allow?
    requires t' == WithRolesChanged(t, operation, target, ChangedIds(t, operation, target, ids))
    ensures !t'.Full(target).isProtected
  {
    var grants := GrantList(t, list);
    ChangedRolesAllowed(operation, actor, grants);
    FinalGrantsCommitted(t, operation, target, ids);
    forall r | r in t'.GrantsOf(target, true) ensures !t.roles[r].isProtected {
      if r in ids {
        var i :| 0 <= i < |list| && list[i] == r;
        assert !grants[i].isProtected;
      } else {
        assert t.Full(target).roles[r] == t.GrantOf(r);
      }
    }
  }

  /** An allowed role change has its target strictly below the actor in the tables before and after it. */
  lemma AllowedChangeBelow(t: Tables, actor: AuthoritySnapshot, target: UserId, ids: set<RoleId>, list: seq<RoleId>,
                           operation: RoleOperation, t': Tables)
    requires t.Live(target)
    requires forall r :: r in ids ==> t.Counts(r, true)
    requires forall r :: r in list ==> r in t.roles
    requires forall r :: r in list <==> r in ids
    requires t' == WithRolesChanged(t, operation, target, ChangedIds(t, operation, target, ids))
    requires DecideRoleChange(operation, actor, t.Full(target), Predicted(operation, t.Full(target), GrantList(t, list)),
                              GrantList(t, list)).Allow?
    ensures t'.users.Keys == t.users.Keys && t'.Live(target)
    ensures StrictlyBelow(actor, t.Full(target)) && StrictlyBelow(actor, t'.Full(target))
  {
    hide GrantList, Predicted, ChangedRolesCheck, Tables.GrantsOf, ChangedIds;
    PredictedBindingCommitted(t, operation, target, ids, list, t');
    UnprotectedAfterChange(t, operation, target, ids, list, actor, t');
  }

  lemma RolesChangedContained(t: Tables, actor: AuthoritySnapshot, target: UserId, ids: set<RoleId>, list: seq<RoleId>,
                              operation: RoleOperation, t': Tables)
    requires t.Live(target)
    requires forall r :: r in ids ==> t.Counts(r, true)
    requires forall r :: r in list ==> r in t.roles
    requires forall r :: r in list <==> r in ids
    requires t' == WithRolesChanged(t, operation, target, ChangedIds(t, operation, target, ids))
    requires DecideRoleChange(operation, actor, t.Full(target), Predicted(operation, t.Full(target), GrantList(t, list)),
                              GrantList(t, list)).Allow?
    ensures Contained(actor, t, t')
  {
    assert target in t.users;
    hide *;
    AllowedChangeBelow(t, actor, target, ids, list, operation, t');
    RolesChangedFrame(t, operation, target, ChangedIds(t, operation, target, ids));
    OneUserContained(actor, t, t', target);
  }

  lemma OneUserContained(actor: AuthoritySnapshot, t: Tables, t': Tables, target: UserId)
    requires t'.users.Keys == t.users.Keys && t'.Live(target)
    requires forall u :: u in t.users && u != target ==> Untouched(t, t', u)
    requires t.Live(target) && StrictlyBelow(actor, t.Full(target)) && StrictlyBelow(actor, t'.Full(target))
    ensures Contained(actor, t, t')
  {
    hide StrictlyBelow;
  }

  lemma ListedRolesContained(t: Tables, actor: AuthoritySnapshot, target: UserId, ids: set<RoleId>, list: seq<RoleId>,
                             operation: RoleOperation, t': Tables)
    requires t.Live(target)
    requires forall r :: r in ids ==> t.Counts(r, true)
    requires forall r :: r in list ==> r in t.roles
    requires forall r :: r in list <==> r in ids
    requires ChangeListedRoles(t, actor, target, ids, list, operation) == Ok(t')
    ensures Contained(actor, t, t')
  {
    RolesChangedContained(t, actor, target, ids, list, operation, t');
  }

  lemma ChangeUserRolesContained(t: Tables, ctx: Context, target: UserId, ids: set<RoleId>, operation: RoleOperation, t': Tables)
    requires ChangeUserRoles(t, ctx, target, ids, operation) == Ok(t')
    ensures t.Live(ctx.userId)
    ensures Contained(t.Effective(ctx.userId), t, t')
  {
    hide Contained, ChangeListedRoles, Build, UserVisible;
    AscendingMembers(ids);
    ListedRolesContained(t, t.Effective(ctx.userId), target, ids, Ascending(ids), operation, t');
  }

  // ----- changes to a role that several users share -----

  /** Users who do not hold the changed role keep their rows, bindings and authority. */
  lemma SharedChangeFrame(t: Tables, t': Tables, id: RoleId)
    requires forall r :: r in t.roles && r != id ==> r in t'.roles && t'.roles[r] == t.roles[r]
    requires forall r :: r in t'.roles && r != id ==> r in t.roles
    requires forall b :: b in t.bindings && b.1 != id ==> b in t'.bindings
    requires forall b :: b in t'.bindings ==> b in t.bindings
    requires forall g :: g in t.grants && g.0 != id ==> g in t'.grants
    requires forall g :: g in t'.grants && g.0 != id ==> g in t.grants
    requires forall u :: t.Live(u) && u !in t.HoldersOf(id) ==> u in t'.users && t'.users[u] == t.users[u]
    ensures forall u :: t.Live(u) && u !in t.HoldersOf(id) ==> Untouched(t, t', u)
  {
    forall r | r in t.roles && r != id ensures t.GrantOf(r) == t'.GrantOf(r) {
      SameGrant(t, t', r);
    }
    forall u, d | t.Live(u) && u !in t.HoldersOf(id)
      ensures t.GrantsOf(u, d) == t'.GrantsOf(u, d) && t.RolesOf(u) == t'.RolesOf(u)
    {
      assert (u, id) !in t.bindings;
      SameGrants(t, t', u, d);
    }
  }

  /** When a scan over the affected snapshots allows, every live holder is strictly below the actor. */
  lemma AffectedStrictlyBelow(t: Tables, id: RoleId, actor: AuthoritySnapshot)
    requires AffectedManageable(actor, Affected(t, id)).Allow?
    ensures forall u :: u in t.HoldersOf(id) ==> StrictlyBelow(actor, t.Full(u))
  {
    AscendingMembers(t.HoldersOf(id));
    AffectedManageableIff(actor, Affected(t, id));
    forall u | u in t.HoldersOf(id) ensures StrictlyBelow(actor, t.Full(u)) {
      var list := Ascending(t.HoldersOf(id));
      var i :| 0 <= i < |list| && list[i] == u;
      assert Affected(t, id)[i] == t.Full(u);
    }
  }

  lemma AffectedAfterStrictlyBelow(t: Tables, id: RoleId, actor: AuthoritySnapshot, replacement: RoleGrant)
    requires AffectedManageable(actor, WithRoleEach(Affected(t, id), replacement)).Allow?
    ensures forall u :: u in t.HoldersOf(id) ==> StrictlyBelow(actor, t.Full(u).WithRole(replacement))
  {
    AscendingMembers(t.HoldersOf(id));
    AffectedManageableIff(actor, WithRoleEach(Affected(t, id), replacement));
    forall u | u in t.HoldersOf(id) ensures StrictlyBelow(actor, t.Full(u).WithRole(replacement)) {
      var list := Ascending(t.HoldersOf(id));
      var i :| 0 <= i < |list| && list[i] == u;
      assert WithRoleEach(Affected(t, id), replacement)[i] == t.Full(u).WithRole(replacement);
    }
  }

  /** Authority that only shrinks stays strictly below. */
  lemma ShrinkingStaysBelow(actor: AuthoritySnapshot, big: AuthoritySnapshot, small: AuthoritySnapshot)
    requires small == small.ReplaceRoles(small.roles) && big == big.ReplaceRoles(big.roles)
    requires small.userId == big.userId && small.userProtected == big.userProtected
    requires forall r :: r in small.roles ==> r in big.roles && big.roles[r] == small.roles[r]
    requires StrictlyBelow(actor, big)
    ensures StrictlyBelow(actor, small)
  {
    MoreRolesMoreAuthority(small, big);
  }

  lemma RenamingTouchesNobody(t: Tables, t': Tables, id: RoleId)
    requires id in t.roles && id in t'.roles
    requires t' == t.(roles := t.roles[id := t'.roles[id]], epoch := t'.epoch)
    requires t'.roles[id] == t.roles[id].(name := t'.roles[id].name, description := t'.roles[id].description,
                                          version := t'.roles[id].version)
    ensures forall u :: u in t.users ==> Untouched(t, t', u)
  {
    forall r | r in t.roles ensures t.GrantOf(r) == t'.GrantOf(r) {
      SameGrant(t, t', r);
    }
    forall u, d | u in t.users ensures t.GrantsOf(u, d) == t'.GrantsOf(u, d) && t.RolesOf(u) == t'.RolesOf(u) {
      SameGrants(t, t', u, d);
    }
  }

  lemma RoleRenamedContained(t: Tables, actor: AuthoritySnapshot, id: RoleId, name: Option<string>, description: Option<string>,
                             t': Tables)
    requires id in t.roles
    requires t' == WithRoleRenamed(t, id, name, description)
    ensures Contained(actor, t, t')
  {
    RenamingTouchesNobody(t, t', id);
  }

  // ----- from a committed request to the facts its guards established -----

  lemma AdministrationGate(t: Tables, locked: SharedRole, operation: Administration)
    requires Administer(t, locked, operation).Pass?
    ensures AffectedManageable(locked.actor, Affected(t, locked.before.roleId)).Allow?
    ensures !locked.before.isSystem
    ensures locked.actor.userId !in locked.holders
    ensures locked.before.tier < locked.actor.tier
  {
  }

  lemma PermissionsGate(t: Tables, locked: SharedRole, operation: RoleOperation, after: set<Permission>)
    requires AdministerPermissions(t, locked, operation, after).Pass?
    ensures AffectedManageable(locked.actor,
                               WithRoleEach(Affected(t, locked.before.roleId), locked.before.(permissions := after))).Allow?
    ensures WithinAuthority(locked.actor, locked.before.permissions)
    ensures WithinAuthority(locked.actor, after) && RegistrationConfigure !in after
    ensures !locked.before.isSystem
    ensures locked.actor.userId !in locked.holders
  {
  }

  lemma LockGate(t: Tables, ctx: Context, id: RoleId, required: Permission, includeInactive: bool, locked: SharedRole)
    requires LockSharedRole(t, ctx, id, required, includeInactive) == Ok(locked)
    ensures t.Live(ctx.userId) && t.users[ctx.userId].active
    ensures locked.actor == t.Effective(ctx.userId)
    ensures t.Counts(id, includeInactive)
    ensures locked.before == t.GrantOf(id) && locked.holders == t.HoldersOf(id)
  {
  }

  lemma UpdateRoleContained(t: Tables, ctx: Context, id: RoleId, name: Option<string>, description: Option<string>,
                            expected: nat, t': Tables)
    requires UpdateRole(t, ctx, id, name, description, expected) == Ok(t')
    ensures t.Live(ctx.userId)
    ensures Contained(t.Effective(ctx.userId), t, t')
  {
    var locked := LockSharedRole(t, ctx, id, RolesUpdate, true).value;
    LockGate(t, ctx, id, RolesUpdate, true, locked);
    RoleRenamedContained(t, locked.actor, id, name, description, t');
  }

  /** Enabling or disabling a role leaves everybody's full authority as it was. */
  lemma RoleActiveKeepsFull(t: Tables, id: RoleId, active: bool, u: UserId, t': Tables)
    requires id in t.roles && u in t.users
    requires t' == WithRoleActive(t, id, active)
    ensures t'.Full(u) == t.Full(u).(authzVersion := t'.users[u].authzVersion)
  {
    RoleActiveKeepsGrants(t, id, active, u, t');
    assert t'.users[u] == t.users[u].(authzVersion := t'.users[u].authzVersion);
  }

  lemma RoleActiveKeepsGrants(t: Tables, id: RoleId, active: bool, u: UserId, t': Tables)
    requires id in t.roles
    requires t' == WithRoleActive(t, id, active)
    ensures t'.GrantsOf(u, true) == t.GrantsOf(u, true)
  {
    if t.roles[id].active != active {
      var row := t.roles[id].(active := active, version := t.roles[id].version + 1);
      assert t'.roles == t.roles[id := row];
      assert t'.bindings == t.bindings && t'.grants == t.grants;
      forall r | r in t.roles ensures t.GrantOf(r) == t'.GrantOf(r) {
        SameGrant(t, t', r);
      }
      SameGrants(t, t', u, true);
    }
  }

  lemma RoleActiveContained(t: Tables, actor: AuthoritySnapshot, id: RoleId, active: bool, t': Tables)
    requires id in t.roles
    requires AffectedManageable(actor, Affected(t, id)).Allow?
    requires t' == WithRoleActive(t, id, active)
    ensures Contained(actor, t, t')
  {
    AffectedStrictlyBelow(t, id, actor);
    SharedChangeFrame(t, t', id);
    forall u | u in t.HoldersOf(id) ensures StrictlyBelow(actor, t'.Full(u)) {
      RoleActiveKeepsFull(t, id, active, u, t');
    }
  }

  lemma SetRoleActiveContained(t: Tables, ctx: Context, id: RoleId, active: bool, expected: nat, t': Tables)
    requires SetRoleActive(t, ctx, id, active, expected) == Ok(t')
    ensures t.Live(ctx.userId)
    ensures Contained(t.Effective(ctx.userId), t, t')
  {
    var locked := LockSharedRole(t, ctx, id, RolesStatusUpdate, true).value;
    LockGate(t, ctx, id, RolesStatusUpdate, true, locked);
    AdministrationGate(t, locked, if active then Enable else Disable);
    RoleActiveContained(t, locked.actor, id, active, t');
  }

  /** Deleting a role removes exactly that role from every holder's full authority. */
  lemma DeletionShrinks(t: Tables, id: RoleId, u: UserId, t': Tables)
    requires id in t.roles && u in t.users
    requires t' == WithoutRole(t, id)
    ensures t'.Full(u).roles == t.Full(u).roles - {id}
  {
    forall r | r in t.roles && r != id ensures t.GrantOf(r) == t'.GrantOf(r) {
      SameGrant(t, t', r);
    }
    assert forall r :: (u, r) in t'.bindings <==> (u, r) in t.bindings && r != id;
    assert forall r :: r != id ==> t'.Counts(r, true) == t.Counts(r, true);
    assert u in t'.users && t'.roles.Keys == t.roles.Keys;
    hide WithoutRole, Tables.GrantOf, Tables.Counts;
    assert t'.GrantsOf(u, true) == t.GrantsOf(u, true) - {id};
  }

  lemma DeletionContained(t: Tables, actor: AuthoritySnapshot, id: RoleId, t': Tables)
    requires id in t.roles
    requires AffectedManageable(actor, Affected(t, id)).Allow?
    requires t' == WithoutRole(t, id)
    ensures Contained(actor, t, t')
  {
    AffectedStrictlyBelow(t, id, actor);
    SharedChangeFrame(t, t', id);
    hide WithoutRole, Affected, AffectedManageable, StrictlyBelow, Tables.Snapshot;
    forall u | u in t.HoldersOf(id) && t.Live(u) ensures t'.Live(u) && StrictlyBelow(actor, t'.Full(u)) {
      DeletedHolderBelow(t, actor, id, u, t');
    }
  }

  lemma DeletedHolderBelow(t: Tables, actor: AuthoritySnapshot, id: RoleId, u: UserId, t': Tables)
    requires id in t.roles && t.Live(u) && t' == WithoutRole(t, id) && StrictlyBelow(actor, t.Full(u))
    ensures t'.Live(u) && StrictlyBelow(actor, t'.Full(u))
  {
    assert t'.Live(u) && t'.users[u].isProtected == t.users[u].isProtected;
    DeletionShrinks(t, id, u, t');
    hide WithoutRole, Tables.GrantsOf, StrictlyBelow;
    ShrinkingStaysBelow(actor, t.Full(u), t'.Full(u));
  }

  lemma SoftDeleteRoleContained(t: Tables, ctx: Context, id: RoleId, expected: nat, t': Tables)
    requires SoftDeleteRole(t, ctx, id, expected) == Ok(t')
    ensures t.Live(ctx.userId)
    ensures Contained(t.Effective(ctx.userId), t, t')
  {
    var locked := LockSharedRole(t, ctx, id, RolesDelete, true).value;
    LockGate(t, ctx, id, RolesDelete, true, locked);
    AdministrationGate(t, locked, Delete);
    DeletionContained(t, locked.actor, id, t');
  }

  /**
   The snapshot the policy judges for each holder of a changed role is that
   holder's full authority rebuilt from the committed tables, up to the stamp.
   */
  lemma PredictedPermissionsCommitted(t: Tables, id: RoleId, keys: set<Permission>, u: UserId, t': Tables)
    requires t.Counts(id, true) && u in t.HoldersOf(id)
    requires t' == WithPermissions(t, id, keys)
    ensures t'.Full(u) ==
            t.Full(u).WithRole(t.GrantOf(id).(permissions := keys)).(authzVersion := t'.users[u].authzVersion)
    ensures t'.users[u].authzVersion ==
            t.users[u].authzVersion + if t.PermissionsOf(id) == keys then 0 else 1
  {
    PermissionsGrants(t, id, keys, u, t');
    PermissionsRow(t, id, keys, u, t');
    hide WithPermissions, Tables.GrantsOf, Tables.GrantOf, Build;
    assert t.Full(u).roles == t.GrantsOf(u, true);
  }

  lemma PermissionsGrants(t: Tables, id: RoleId, keys: set<Permission>, u: UserId, t': Tables)
    requires t.Counts(id, true) && u in t.HoldersOf(id)
    requires t' == WithPermissions(t, id, keys)
    ensures t'.GrantsOf(u, true) == t.GrantsOf(u, true)[id := t.GrantOf(id).(permissions := keys)]
  {
    forall r | r in t.roles && r != id ensures t.GrantOf(r) == t'.GrantOf(r) {
      SameGrant(t, t', r);
    }
    assert t'.PermissionsOf(id) == keys;
    assert t'.GrantOf(id) == t.GrantOf(id).(permissions := keys);
  }

  lemma PermissionsRow(t: Tables, id: RoleId, keys: set<Permission>, u: UserId, t': Tables)
    requires id in t.roles && u in t.HoldersOf(id)
    requires t' == WithPermissions(t, id, keys)
    ensures u in t.users && u in t'.users
    ensures t'.users[u] == t.users[u].(authzVersion := t'.users[u].authzVersion)
    ensures t'.users[u].authzVersion == t.users[u].authzVersion + if t.PermissionsOf(id) == keys then 0 else 1
  {
  }

  /** Before the change a holder had at most what it has afterwards plus what the role granted. */
  lemma HolderWasBelow(actor: AuthoritySnapshot, before: AuthoritySnapshot, role: RoleGrant, keys: set<Permission>)
    requires before == before.ReplaceRoles(before.roles)
    requires role.roleId in before.roles && before.roles[role.roleId] == role
    requires WithinAuthority(actor, role.permissions)
    requires StrictlyBelow(actor, before.WithRole(role.(permissions := keys)))
    ensures StrictlyBelow(actor, before)
  {
    var after := before.WithRole(role.(permissions := keys));
    forall p | p in before.permissions ensures p in after.permissions || p in role.permissions {
      var r :| r in before.roles && p in before.roles[r].permissions;
      assert r != role.roleId ==> after.roles[r] == before.roles[r];
    }
    assert (set r | r in before.roles :: before.roles[r].tier) == (set r | r in after.roles :: after.roles[r].tier) by {
      assert forall r :: r in before.roles ==> r in after.roles && after.roles[r].tier == before.roles[r].tier;
      assert forall r :: r in after.roles ==> r in before.roles;
    }
    assert forall r :: r in before.roles ==> after.roles[r].isProtected == before.roles[r].isProtected;
  }

  lemma PermissionsContained(t: Tables, actor: AuthoritySnapshot, id: RoleId, keys: set<Permission>, t': Tables)
    requires t.Counts(id, true)
    requires WithinAuthority(actor, t.PermissionsOf(id))
    requires AffectedManageable(actor, WithRoleEach(Affected(t, id), t.GrantOf(id).(permissions := keys))).Allow?
    requires t' == WithPermissions(t, id, keys)
    ensures Contained(actor, t, t')
  {
    AffectedAfterStrictlyBelow(t, id, actor, t.GrantOf(id).(permissions := keys));
    PermissionsFrame(t, id, keys, t');
    forall u | u in t.HoldersOf(id) ensures StrictlyBelow(actor, t.Full(u)) && StrictlyBelow(actor, t'.Full(u)) {
      PredictedPermissionsCommitted(t, id, keys, u, t');
      HolderWasBelow(actor, t.Full(u), t.GrantOf(id), keys);
    }
  }

  lemma PermissionsFrame(t: Tables, id: RoleId, keys: set<Permission>, t': Tables)
    requires id in t.roles
    requires t' == WithPermissions(t, id, keys)
    ensures forall u :: t.Live(u) ==> t'.Live(u)
    ensures forall u :: t.Live(u) && u !in t.HoldersOf(id) ==> Untouched(t, t', u)
  {
    SharedChangeFrame(t, t', id);
  }

  lemma ChangeRolePermissionsContained(t: Tables, ctx: Context, id: RoleId, requested: set<PermissionId>,
                                       operation: RoleOperation, expected: nat, t': Tables)
    requires ChangeRolePermissions(t, ctx, id, requested, operation, expected) == Ok(t')
    ensures t.Live(ctx.userId)
    ensures Contained(t.Effective(ctx.userId), t, t')
  {
    var required := if operation == Bind then RolesPermissionsBind else RolesPermissionsUnbind;
    var locked := LockSharedRole(t, ctx, id, required, false).value;
    LockGate(t, ctx, id, required, false, locked);
    var keys := set p | p in requested :: t.catalog[p];
    var after := PermissionsAfter(operation, locked.before.permissions, keys);
    PermissionsGate(t, locked, operation, after);
    PermissionsContained(t, locked.actor, id, after, t');
  }
}
