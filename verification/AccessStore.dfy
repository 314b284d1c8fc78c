/**
 The tables as mutable state.  A transaction loads snapshots from join rows,
 scans roles and subjects, and updates rows in place; it is proved to commit or
 refuse exactly as the transaction's function says, so that a store that
 executes requests goes through the runs the access theorems are about.
 */
module AccessStore {
  import opened Wrappers
  import opened Domain
  import opened Policy
  import opened AccessTables
  import opened AccessInvariant
  import opened AccessRuns

  /** A transaction's answer and the rows it leaves, against what its function prescribes. */
  ghost predicate Performs(before: Tables, change: Change, answer: Check<Reason>, after: Tables) {
    match change
    case Ok(t) => answer.Pass? && after == t
    case Err(reason) => answer == Fail(reason) && after == before
  }

  // ----- rebuilding grants from join rows -----

  /** One row of the bindings, roles, outer-joined grants query. */
  datatype JoinRow = JoinRow(grant: RoleGrant, permission: Option<Permission>)

  /** The rows the outer join yields for a user: one per granted permission, or a single empty one for a bare role. */
  ghost predicate IsJoin(t: Tables, u: UserId, includeDisabled: bool, rows: seq<JoinRow>) {
    && (forall i :: 0 <= i < |rows| ==>
          var r := rows[i].grant.roleId;
          && (u, r) in t.bindings && t.Counts(r, includeDisabled)
          && rows[i].grant == t.GrantOf(r).(permissions := {})
          && match rows[i].permission
             case None => t.PermissionsOf(r) == {}
             case Some(p) => (r, p) in t.grants)
    && (forall r :: (u, r) in t.bindings && t.Counts(r, includeDisabled) ==>
          exists i :: 0 <= i < |rows| && rows[i].grant.roleId == r)
    && (forall r, p :: (u, r) in t.bindings && t.Counts(r, includeDisabled) && (r, p) in t.grants ==>
          exists i :: 0 <= i < |rows| && rows[i].grant.roleId == r && rows[i].permission == Some(p))
  }

  /** The roles, and the permissions of one role, met in the first `n` rows. */
  function Seen(rows: seq<JoinRow>, n: nat): set<RoleId>
    requires n <= |rows|
  {
    set i | 0 <= i < n :: rows[i].grant.roleId
  }

  function SeenPermissions(rows: seq<JoinRow>, n: nat, r: RoleId): set<Permission>
    requires n <= |rows|
  {
    set i | 0 <= i < n && rows[i].grant.roleId == r && rows[i].permission.Some? :: rows[i].permission.value
  }

  /** The accumulating loader rebuilds exactly the grants of the user, whatever order the rows come in. */
  method LoadGrants(ghost t: Tables, ghost u: UserId, ghost includeDisabled: bool, rows: seq<JoinRow>)
    returns (grants: map<RoleId, RoleGrant>)
    requires IsJoin(t, u, includeDisabled, rows)
    ensures grants == t.GrantsOf(u, includeDisabled)
  {
    hide IsJoin, Seen, SeenPermissions;
    grants := map[];
    NothingSeen(rows);
    for n := 0 to |rows|
      invariant grants.Keys == Seen(rows, n)
      invariant forall r :: r in grants ==>
                  r in t.roles && grants[r] == t.GrantOf(r).(permissions := SeenPermissions(rows, n, r))
    {
      var row := rows[n];
      var r := row.grant.roleId;
      RowColumns(t, u, includeDisabled, rows, n);
      SeenStep(rows, n);
      if r !in grants {
        grants := grants[r := row.grant.(permissions := {})];
      }
      if row.permission.Some? {
        grants := grants[r := grants[r].(permissions := grants[r].permissions + {row.permission.value})];
      }
    }
    JoinRebuilds(t, u, includeDisabled, rows);
  }

  lemma NothingSeen(rows: seq<JoinRow>)
    ensures Seen(rows, 0) == {}
  {
  }

  lemma RowColumns(t: Tables, u: UserId, includeDisabled: bool, rows: seq<JoinRow>, n: nat)
    requires n < |rows| && IsJoin(t, u, includeDisabled, rows)
    ensures rows[n].grant.roleId in t.roles
    ensures rows[n].grant == t.GrantOf(rows[n].grant.roleId).(permissions := {})
  {
  }

  lemma SeenStep(rows: seq<JoinRow>, n: nat)
    requires n < |rows|
    ensures Seen(rows, n + 1) == Seen(rows, n) + {rows[n].grant.roleId}
    ensures forall r :: SeenPermissions(rows, n + 1, r) == SeenPermissions(rows, n, r) +
                        if r == rows[n].grant.roleId && rows[n].permission.Some? then {rows[n].permission.value} else {}
    ensures rows[n].grant.roleId !in Seen(rows, n) ==> SeenPermissions(rows, n, rows[n].grant.roleId) == {}
  {
  }

  lemma JoinRebuilds(t: Tables, u: UserId, includeDisabled: bool, rows: seq<JoinRow>)
    requires IsJoin(t, u, includeDisabled, rows)
    ensures Seen(rows, |rows|) == t.GrantsOf(u, includeDisabled).Keys
    ensures forall r :: r in Seen(rows, |rows|) ==>
              SeenPermissions(rows, |rows|, r) == t.PermissionsOf(r) && t.GrantOf(r) == t.GrantsOf(u, includeDisabled)[r]
  {
    forall r ensures r in Seen(rows, |rows|) <==> (u, r) in t.bindings && t.Counts(r, includeDisabled) {
      if (u, r) in t.bindings && t.Counts(r, includeDisabled) {
        var i :| 0 <= i < |rows| && rows[i].grant.roleId == r;
      }
    }
    forall r | r in Seen(rows, |rows|) ensures SeenPermissions(rows, |rows|, r) == t.PermissionsOf(r) {
      forall p ensures p in SeenPermissions(rows, |rows|, r) <==> (r, p) in t.grants {
        if (r, p) in t.grants {
          var i :| 0 <= i < |rows| && rows[i].grant.roleId == r && rows[i].permission == Some(p);
        }
      }
    }
  }

  // ----- the join query -----

  /** The rows of one role: one per permission, or a single one without. */
  ghost predicate RowsOfRole(t: Tables, r: RoleId, rows: seq<JoinRow>)
    requires r in t.roles
  {
    && rows != []
    && (forall i :: 0 <= i < |rows| ==>
          && rows[i].grant == t.GrantOf(r).(permissions := {})
          && match rows[i].permission
             case None => t.PermissionsOf(r) == {}
             case Some(p) => p in t.PermissionsOf(r))
    && (forall p :: p in t.PermissionsOf(r) ==> exists i :: 0 <= i < |rows| && rows[i].permission == Some(p))
  }

  method QueryRole(t: Tables, r: RoleId) returns (rows: seq<JoinRow>)
    requires r in t.roles
    ensures RowsOfRole(t, r, rows)
  {
    var bare := t.GrantOf(r).(permissions := {});
    var keys := t.PermissionsOf(r);
    if keys == {} {
      return [JoinRow(bare, None)];
    }
    rows := [];
    var pending := keys;
    while pending != {}
      invariant pending <= keys && (rows == [] ==> pending == keys)
      invariant forall i :: 0 <= i < |rows| ==>
                  rows[i].grant == bare && rows[i].permission.Some? && rows[i].permission.value in keys
      invariant forall p :: p in keys - pending ==> exists i :: 0 <= i < |rows| && rows[i].permission == Some(p)
      decreases pending
    {
      var p :| p in pending;
      ghost var before := rows;
      rows := rows + [JoinRow(bare, Some(p))];
      KeyCovered(before, rows, keys - pending, p);
      assert keys - pending + {p} == keys - (pending - {p});
      pending := pending - {p};
    }
    assert keys - pending == keys;
  }

  lemma KeyCovered(before: seq<JoinRow>, rows: seq<JoinRow>, done: set<Permission>, p: Permission)
    requires before < rows && rows[|rows| - 1].permission == Some(p)
    requires forall q :: q in done ==> exists i :: 0 <= i < |before| && before[i].permission == Some(q)
    ensures forall q :: q in done + {p} ==> exists i :: 0 <= i < |rows| && rows[i].permission == Some(q)
  {
    forall q | q in done ensures exists i :: 0 <= i < |rows| && rows[i].permission == Some(q) {
      var i :| 0 <= i < |before| && before[i].permission == Some(q);
      assert rows[i] == before[i];
    }
  }

  /** The rows of several roles, each contiguous. */
  ghost predicate RowsOfRoles(t: Tables, ids: set<RoleId>, rows: seq<JoinRow>) {
    && (forall i :: 0 <= i < |rows| ==>
          var r := rows[i].grant.roleId;
          && r in ids && r in t.roles && rows[i].grant == t.GrantOf(r).(permissions := {})
          && match rows[i].permission
             case None => t.PermissionsOf(r) == {}
             case Some(p) => p in t.PermissionsOf(r))
    && (forall r :: r in ids ==> exists i :: 0 <= i < |rows| && rows[i].grant.roleId == r)
    && (forall r, p :: r in ids && p in t.PermissionsOf(r) ==>
          exists i :: 0 <= i < |rows| && rows[i].grant.roleId == r && rows[i].permission == Some(p))
  }

  lemma RoleAppended(t: Tables, ids: set<RoleId>, rows: seq<JoinRow>, r: RoleId, more: seq<JoinRow>)
    requires RowsOfRoles(t, ids, rows) && r in t.roles && RowsOfRole(t, r, more)
    ensures RowsOfRoles(t, ids + {r}, rows + more)
  {
    var all := rows + more;
    forall s | s in ids + {r} ensures exists i :: 0 <= i < |all| && all[i].grant.roleId == s {
      if s in ids {
        var i :| 0 <= i < |rows| && rows[i].grant.roleId == s;
        assert all[i] == rows[i];
      } else {
        assert all[|rows|] == more[0];
      }
    }
    forall s, p | s in ids + {r} && p in t.PermissionsOf(s)
      ensures exists i :: 0 <= i < |all| && all[i].grant.roleId == s && all[i].permission == Some(p)
    {
      if s in ids {
        var i :| 0 <= i < |rows| && rows[i].grant.roleId == s && rows[i].permission == Some(p);
        assert all[i] == rows[i];
      } else {
        var i :| 0 <= i < |more| && more[i].permission == Some(p);
        assert all[|rows| + i] == more[i];
      }
    }
  }

  /** The bindings, roles and outer-joined grants of one user, in any order of roles. */
  method QueryGrants(t: Tables, u: UserId, includeDisabled: bool) returns (rows: seq<JoinRow>)
    ensures IsJoin(t, u, includeDisabled, rows)
  {
    var ids := set r | r in t.RolesOf(u) && t.Counts(r, includeDisabled);
    var pending, done := ids, {};
    rows := [];
    hide RowsOfRole, RowsOfRoles;
    NoRoles(t);
    while pending != {}
      invariant done + pending == ids && RowsOfRoles(t, done, rows)
      decreases pending
    {
      var r :| r in pending;
      assert r in ids;
      var more := QueryRole(t, r);
      RoleAppended(t, done, rows, r, more);
      rows := rows + more;
      pending, done := pending - {r}, done + {r};
    }
    assert done == ids;
    RowsAreJoin(t, u, includeDisabled, rows);
  }

  lemma NoRoles(t: Tables)
    ensures RowsOfRoles(t, {}, [])
  {
  }

  lemma RowsAreJoin(t: Tables, u: UserId, includeDisabled: bool, rows: seq<JoinRow>)
    requires RowsOfRoles(t, (set r | r in t.RolesOf(u) && t.Counts(r, includeDisabled)), rows)
    ensures IsJoin(t, u, includeDisabled, rows)
  {
    var ids := set r | r in t.RolesOf(u) && t.Counts(r, includeDisabled);
    assert forall r :: r in ids <==> (u, r) in t.bindings && t.Counts(r, includeDisabled);
    assert forall r: RoleId, p: Permission :: (r, p) in t.grants <==> p in t.PermissionsOf(r);
  }

  // ----- scans, as the policy and the service loop over them -----

  method ScanChangedRoles(operation: RoleOperation, actor: AuthoritySnapshot, changed: seq<RoleGrant>) returns (decision: Decision)
    ensures decision == ChangedRolesCheck(operation, actor, changed)
  {
    assert changed[0..] == changed;
    for k := 0 to |changed|
      invariant ChangedRolesCheck(operation, actor, changed) == ChangedRolesCheck(operation, actor, changed[k..])
    {
      var role := changed[k];
      assert changed[k..][0] == role && changed[k..][1..] == changed[k + 1..];
      if role.key == SuperAdminKey || role.isProtected {
        return Deny(SuperAdminAssignmentOfflineOnly);
      }
      if operation == Unbind && role.key == UserKey {
        return Deny(DefaultUserRoleRequired);
      }
      if role.key == AdminKey && !actor.isSuperAdmin {
        return Deny(SuperAdminRequired);
      }
      if !WithinAuthority(actor, role.permissions) {
        return Deny(PermissionCeilingExceeded);
      }
      if actor.tier <= role.tier {
        return Deny(RoleNotStrictlyLower);
      }
    }
    return Allow;
  }

  method ScanAffected(actor: AuthoritySnapshot, affected: seq<AuthoritySnapshot>) returns (decision: Decision)
    ensures decision == AffectedManageable(actor, affected)
  {
    assert affected[0..] == affected;
    for k := 0 to |affected|
      invariant AffectedManageable(actor, affected) == AffectedManageable(actor, affected[k..])
    {
      var subject := affected[k];
      assert affected[k..][0] == subject && affected[k..][1..] == affected[k + 1..];
      if subject.isProtected || actor.userId == subject.userId {
        return Deny(AffectedSubjectNotManageable);
      }
      if actor.tier <= subject.tier {
        return Deny(AffectedSubjectNotStrictlyLower);
      }
      if !WithinAuthority(actor, subject.permissions) {
        return Deny(PermissionCeilingExceeded);
      }
    }
    return Allow;
  }

  /** `target_after`, one grant at a time. */
  method Accumulate(operation: RoleOperation, before: AuthoritySnapshot, requested: seq<RoleGrant>)
    returns (after: AuthoritySnapshot)
    ensures after == Predicted(operation, before, requested)
  {
    hide Build;
    after := before;
    assert requested[0..] == requested;
    for k := 0 to |requested|
      invariant Predicted(operation, before, requested) == Predicted(operation, after, requested[k..])
    {
      assert requested[k..][0] == requested[k] && requested[k..][1..] == requested[k + 1..];
      after := if operation == Bind then after.WithRole(requested[k]) else after.WithoutRole(requested[k].roleId);
    }
  }

  method ReplaceEach(snapshots: seq<AuthoritySnapshot>, role: RoleGrant) returns (after: seq<AuthoritySnapshot>)
    ensures after == WithRoleEach(snapshots, role)
  {
    hide Build;
    after := [];
    for k := 0 to |snapshots|
      invariant |after| == k && forall i :: 0 <= i < k ==> after[i] == snapshots[i].WithRole(role)
    {
      after := after + [snapshots[k].WithRole(role)];
    }
  }

  method JudgeRoleChange(operation: RoleOperation, actor: AuthoritySnapshot, before: AuthoritySnapshot,
                         after: AuthoritySnapshot, changed: seq<RoleGrant>) returns (decision: Decision)
    ensures decision == DecideRoleChange(operation, actor, before, after, changed)
  {
    hide ChangedRolesCheck, WithinAuthority;
    decision := BasicActorCheck(actor, if operation == Bind then RolesAssign else RolesRevoke);
    if decision.Deny? {
      return;
    }
    if actor.userId == before.userId {
      return Deny(SelfManagementForbidden);
    }
    if operation == Bind && !before.active {
      return Deny(TargetInactive);
    }
    if before.isProtected {
      return Deny(ProtectedSubject);
    }
    decision := ScanChangedRoles(operation, actor, changed);
    if decision.Deny? {
      return;
    }
    if actor.tier <= before.tier || actor.tier <= after.tier {
      return Deny(TargetNotStrictlyLower);
    }
    if !WithinAuthority(actor, before.permissions) || !WithinAuthority(actor, after.permissions) {
      return Deny(PermissionCeilingExceeded);
    }
    return Allow;
  }

  /** The checks a shared role change makes before it looks at the subjects, and then the scan over them. */
  method JudgeAdministration(operation: Administration, actor: AuthoritySnapshot, role: RoleGrant, actorHoldsRole: bool,
                             affected: seq<AuthoritySnapshot>) returns (decision: Decision)
    ensures decision == DecideRoleAdministration(operation, actor, role, actorHoldsRole, affected)
  {
    hide AffectedManageable, WithinAuthority;
    decision := BasicActorCheck(actor, RequiredFor(operation));
    if decision.Deny? {
      return;
    }
    if role.isSystem {
      return Deny(SystemRoleImmutable);
    }
    if actorHoldsRole {
      return Deny(IndirectSelfChangeForbidden);
    }
    if actor.tier <= role.tier {
      return Deny(RoleNotStrictlyLower);
    }
    if !WithinAuthority(actor, role.permissions) {
      return Deny(PermissionCeilingExceeded);
    }
    decision := ScanAffected(actor, affected);
  }

  method JudgePermissions(operation: RoleOperation, actor: AuthoritySnapshot, role: RoleGrant, after: set<Permission>,
                          actorHoldsRole: bool, affectedAfter: seq<AuthoritySnapshot>) returns (decision: Decision)
    ensures decision == DecideRolePermissionsChange(operation, actor, role, after, actorHoldsRole, affectedAfter)
  {
    hide AffectedManageable, WithinAuthority;
    decision := BasicActorCheck(actor, if operation == Bind then RolesPermissionsBind else RolesPermissionsUnbind);
    if decision.Deny? {
      return;
    }
    if role.isSystem {
      return Deny(SystemRoleImmutable);
    }
    if actorHoldsRole {
      return Deny(IndirectSelfChangeForbidden);
    }
    if actor.tier <= role.tier {
      return Deny(RoleNotStrictlyLower);
    }
    if !WithinAuthority(actor, role.permissions) {
      return Deny(PermissionCeilingExceeded);
    }
    if !(after <= SUPER_ADMIN_PERMISSIONS) {
      return Deny(PermissionOutsideControlPlane);
    }
    if RegistrationConfigure in after {
      return Deny(SystemOnlyPermission);
    }
    if !(after <= actor.permissions) {
      return Deny(PermissionCeilingExceeded);
    }
    decision := ScanAffected(actor, affectedAfter);
  }

  // ----- the transactions -----

  class RbacStore {
    var users: map<UserId, UserRow>
    var roles: map<RoleId, RoleRow>
    var bindings: set<(UserId, RoleId)>
    var grants: set<(RoleId, Permission)>
    var epoch: nat
    var registrationOpen: bool
    const catalog: map<PermissionId, Permission>

    constructor (initial: Tables)
      ensures Rows() == initial
    {
      users, roles, bindings, grants := initial.users, initial.roles, initial.bindings, initial.grants;
      epoch, registrationOpen, catalog := initial.epoch, initial.registrationOpen, initial.catalog;
    }

    function Rows(): Tables
      reads this
    {
      Tables(users, roles, bindings, grants, epoch, registrationOpen, catalog)
    }

    // ----- loading and locking -----

    method LoadSnapshot(u: UserId, includeDisabled: bool) returns (snapshot: AuthoritySnapshot)
      requires u in users
      ensures snapshot == Rows().Snapshot(u, includeDisabled)
    {
      hide Build, IsJoin, Tables.GrantsOf;
      var t := Rows();
      var rows := QueryGrants(t, u, includeDisabled);
      var held := LoadGrants(t, u, includeDisabled, rows);
      var row := users[u];
      snapshot := Build(u, row.active, row.isProtected, row.tokenVersion, row.authzVersion, held);
    }

    method LoadSnapshots(ids: seq<UserId>) returns (snapshots: seq<AuthoritySnapshot>)
      requires forall u :: u in ids ==> u in users
      ensures snapshots == SnapshotList(Rows(), ids)
    {
      hide Tables.Snapshot;
      snapshots := [];
      for k := 0 to |ids|
        invariant |snapshots| == k && forall i :: 0 <= i < k ==> snapshots[i] == Rows().Full(ids[i])
      {
        var snapshot := LoadSnapshot(ids[k], true);
        snapshots := snapshots + [snapshot];
      }
    }

    method RequireCurrentActor(ctx: Context) returns (actor: Result<AuthoritySnapshot, Reason>)
      ensures actor == CurrentActor(Rows(), ctx)
    {
      hide Tables.Snapshot;
      if !Rows().Live(ctx.userId) || !users[ctx.userId].active || users[ctx.userId].tokenVersion != ctx.tokenVersion {
        return Err(ActorNoLongerActive);
      }
      var snapshot := LoadSnapshot(ctx.userId, false);
      return Ok(snapshot);
    }

    method LockActor(ctx: Context) returns (actor: Result<AuthoritySnapshot, Reason>)
      ensures actor == LockedActor(Rows(), ctx)
    {
      hide Tables.Snapshot;
      if !Rows().Live(ctx.userId) {
        return Err(ActorMissing);
      }
      actor := RequireCurrentActor(ctx);
    }

    method LockActorAndTarget(ctx: Context, target: UserId, required: Permission)
      returns (locked: Result<(AuthoritySnapshot, AuthoritySnapshot), Reason>)
      ensures locked == ActorAndTarget(Rows(), ctx, target, required)
    {
      hide Tables.Snapshot, UserVisible, LockedActor;
      var actor := LockActor(ctx);
      if actor.Err? {
        return Err(actor.error);
      }
      if required !in actor.value.permissions {
        return Err(MissingOperationPermission);
      }
      if !Rows().Live(target) {
        return Err(TargetUserNotFound);
      }
      var effective := LoadSnapshot(target, false);
      if !UserVisible(actor.value, effective) {
        return Err(TargetUserNotFound);
      }
      var full := LoadSnapshot(target, true);
      return Ok((actor.value, full));
    }

    /** The locked role with its live holders and their full snapshots. */
    method LockShared(ctx: Context, id: RoleId, required: Permission, includeInactive: bool)
      returns (locked: Result<SharedRole, Reason>, affected: seq<AuthoritySnapshot>)
      ensures locked == LockSharedRole(Rows(), ctx, id, required, includeInactive)
      ensures locked.Ok? ==> affected == Affected(Rows(), id)
    {
      hide Tables.Snapshot, RoleVisible, LockedActor, SnapshotList, Tables.HoldersOf;
      affected := [];
      var actor := LockActor(ctx);
      if actor.Err? {
        return Err(actor.error), affected;
      }
      if required !in actor.value.permissions {
        return Err(MissingOperationPermission), affected;
      }
      if !Rows().Counts(id, includeInactive) {
        return Err(RoleNotFound), affected;
      }
      var before := Rows().GrantOf(id);
      if !RoleVisible(actor.value, before) {
        return Err(RoleNotFound), affected;
      }
      var holders := Rows().HoldersOf(id);
      AscendingMembers(holders);
      affected := LoadSnapshots(Ascending(holders));
      return Ok(SharedRole(actor.value, before, holders)), affected;
    }

    method RequireAdministration(locked: SharedRole, affected: seq<AuthoritySnapshot>, operation: Administration)
      returns (check: Check<Reason>)
      requires affected == Affected(Rows(), locked.before.roleId)
      ensures check == Administer(Rows(), locked, operation)
    {
      hide DecideRoleAdministration, Affected;
      var decision := JudgeAdministration(operation, locked.actor, locked.before, locked.actor.userId in locked.holders, affected);
      return Permit(decision);
    }

    method RequirePermissionsChange(locked: SharedRole, affected: seq<AuthoritySnapshot>, operation: RoleOperation,
                                    after: set<Permission>) returns (check: Check<Reason>)
      requires affected == Affected(Rows(), locked.before.roleId)
      ensures check == AdministerPermissions(Rows(), locked, operation, after)
    {
      hide DecideRolePermissionsChange, Affected, WithRoleEach;
      var affectedAfter := ReplaceEach(affected, locked.before.(permissions := after));
      var decision := JudgePermissions(operation, locked.actor, locked.before, after, locked.actor.userId in locked.holders,
                                       affectedAfter);
      return Permit(decision);
    }

    // ----- one user -----

    method UpdateUserStatus(ctx: Context, target: UserId, active: bool) returns (answer: Check<Reason>)
      modifies this
      ensures Performs(old(Rows()), AccessTables.UpdateUserStatus(old(Rows()), ctx, target, active), answer, Rows())
    {
      hide WithStatus, DecideUserAdministration, LockedActor, UserVisible, Tables.Snapshot;
      var locked := LockActorAndTarget(ctx, target, UsersStatusUpdate);
      if locked.Err? {
        return Fail(locked.error);
      }
      var decision := DecideUserAdministration(locked.value.0, locked.value.1, UsersStatusUpdate);
      if decision.Deny? {
        return Fail(decision.reason);
      }
      CommitStatus(target, active);
      return Pass;
    }

    method CommitStatus(target: UserId, active: bool)
      requires target in users
      modifies this
      ensures Rows() == WithStatus(old(Rows()), target, active)
    {
      if users[target].active != active {
        var row := users[target];
        row := row.(active := active);
        row := row.(tokenVersion := row.tokenVersion + 1);
        row := row.(authzVersion := row.authzVersion + 1);
        users := users[target := row];
        epoch := epoch + 1;
      }
    }

    method BumpTokenVersion(target: UserId)
      requires target in users
      modifies this`users
      ensures Rows() == WithSessionsRevoked(old(Rows()), target)
    {
      users := users[target := users[target].(tokenVersion := users[target].tokenVersion + 1)];
    }

    method RevokeUserSessions(ctx: Context, target: UserId) returns (answer: Check<Reason>)
      modifies this
      ensures Performs(old(Rows()), AccessTables.RevokeUserSessions(old(Rows()), ctx, target), answer, Rows())
    {
      hide WithSessionsRevoked, DecideUserAdministration, LockedActor, UserVisible, Tables.Snapshot;
      var locked := LockActorAndTarget(ctx, target, UsersSessionsRevoke);
      if locked.Err? {
        return Fail(locked.error);
      }
      var decision := DecideUserAdministration(locked.value.0, locked.value.1, UsersSessionsRevoke);
      if decision.Deny? {
        return Fail(decision.reason);
      }
      BumpTokenVersion(target);
      return Pass;
    }

    method ResetUserPassword(ctx: Context, target: UserId) returns (answer: Check<Reason>)
      modifies this
      ensures Performs(old(Rows()), AccessTables.ResetUserPassword(old(Rows()), ctx, target), answer, Rows())
    {
      hide WithSessionsRevoked, DecideUserAdministration, CurrentActor, UserVisible, Tables.Snapshot;
      var actor := RequireCurrentActor(ctx);
      if actor.Err? {
        return Fail(actor.error);
      }
      if UsersPasswordReset !in actor.value.permissions {
        return Fail(MissingOperationPermission);
      }
      if !Rows().Live(target) {
        return Fail(TargetUserNotFound);
      }
      var before := LoadSnapshot(target, true);
      if !UserVisible(actor.value, before) {
        return Fail(TargetUserNotFound);
      }
      var decision := DecideUserAdministration(actor.value, before, UsersPasswordReset);
      if decision.Deny? {
        return Fail(decision.reason);
      }
      BumpTokenVersion(target);
      return Pass;
    }

    // ----- role bindings -----

    /** Inserts one binding row per id. */
    method InsertBindings(target: UserId, ids: set<RoleId>)
      modifies this`bindings
      ensures bindings == old(bindings) + Pairs(target, ids)
    {
      var pending := ids;
      while pending != {}
        invariant pending <= ids
        invariant bindings == old(bindings) + Pairs(target, ids - pending)
        decreases pending
      {
        var r :| r in pending;
        bindings := bindings + {(target, r)};
        pending := pending - {r};
      }
    }

    method ChangeUserRoles(ctx: Context, target: UserId, ids: set<RoleId>, operation: RoleOperation)
      returns (answer: Check<Reason>)
      modifies this
      ensures Performs(old(Rows()), AccessTables.ChangeUserRoles(old(Rows()), ctx, target, ids, operation), answer, Rows())
    {
      hide LockedActor, UserVisible, Tables.Snapshot, AccessTables.ChangeListedRoles, Requestable;
      if ids == {} {
        return Fail(RoleIdsRequired);
      }
      var locked := LockActorAndTarget(ctx, target, if operation == Bind then RolesAssign else RolesRevoke);
      if locked.Err? {
        return Fail(locked.error);
      }
      if !(forall r :: r in ids ==> Requestable(Rows(), operation, target, r)) {
        return Fail(RoleNotFound);
      }
      RequestableRoles(Rows(), operation, target, ids);
      AscendingMembers(ids);
      answer := ChangeListedRoles(locked.value.0, locked.value.1, target, ids, Ascending(ids), operation);
    }

    method ChangeListedRoles(actor: AuthoritySnapshot, before: AuthoritySnapshot, target: UserId, ids: set<RoleId>,
                             list: seq<RoleId>, operation: RoleOperation) returns (answer: Check<Reason>)
      requires Rows().Live(target) && before == Rows().Full(target)
      requires forall r :: r in list ==> r in roles
      modifies this
      ensures Performs(old(Rows()), AccessTables.ChangeListedRoles(old(Rows()), actor, target, ids, list, operation), answer, Rows())
    {
      hide DecideRoleChange, Predicted, WithRolesChanged, RoleVisible, Tables.Snapshot, GrantList, ChangedIds;
      var requested := GrantList(Rows(), list);
      if !(forall i :: 0 <= i < |requested| ==> RoleVisible(actor, requested[i])) {
        return Fail(RoleNotFound);
      }
      var after := Accumulate(operation, before, requested);
      var decision := JudgeRoleChange(operation, actor, before, after, requested);
      if decision.Deny? {
        return Fail(decision.reason);
      }
      var changed := ChangedIds(Rows(), operation, target, ids);
      if operation == Bind && changed != {} && |Rows().RolesOf(target)| + |changed| > MAX_ROLES_PER_USER {
        return Fail(UserRoleLimitExceeded);
      }
      CommitRoles(operation, target, changed);
      return Pass;
    }

    method CommitRoles(operation: RoleOperation, target: UserId, changed: set<RoleId>)
      requires target in users
      modifies this
      ensures Rows() == WithRolesChanged(old(Rows()), operation, target, changed)
    {
      if changed != {} {
        if operation == Bind {
          InsertBindings(target, changed);
        } else {
          bindings := bindings - Pairs(target, changed);
        }
        users := users[target := users[target].(authzVersion := users[target].authzVersion + 1)];
        epoch := epoch + 1;
      }
    }

    // ----- roles -----

    method CreateRole(ctx: Context, id: RoleId, key: RoleKey, name: string, description: string, tier: int)
      returns (answer: Check<Reason>)
      modifies this
      ensures Performs(old(Rows()), AccessTables.CreateRole(old(Rows()), ctx, id, key, name, description, tier), answer, Rows())
    {
      hide LockedActor;
      var actor := LockActor(ctx);
      if actor.Err? {
        return Fail(actor.error);
      }
      var decision := DecideRoleCreate(actor.value, tier);
      if decision.Deny? {
        return Fail(decision.reason);
      }
      if !key.CustomKey? {
        return Fail(ReservedRoleKey);
      }
      if exists r :: r in roles && roles[r].key == key {
        return Fail(RoleKeyExists);
      }
      if id in roles {
        return Fail(DuplicateId);
      }
      roles := roles[id := NewRole(key, name, description, tier)];
      epoch := epoch + 1;
      return Pass;
    }

    /** One version step for the role, one authority step for each holder, one epoch step. */
    method BumpSharedAuthority(id: RoleId, holders: set<UserId>)
      requires id in roles
      modifies this`roles, this`users, this`epoch
      ensures Rows() == BumpShared(old(Rows()), id, holders)
    {
      roles := roles[id := roles[id].(version := roles[id].version + 1)];
      ghost var bumpedRoles := roles;
      var pending := holders * users.Keys;
      while pending != {}
        invariant roles == bumpedRoles && epoch == old(epoch)
        invariant pending <= holders * users.Keys
        invariant users == Bumped(old(users), holders * old(users).Keys - pending)
        decreases pending
      {
        var u :| u in pending;
        users := users[u := users[u].(authzVersion := users[u].authzVersion + 1)];
        pending := pending - {u};
      }
      assert users == Bumped(old(users), holders);
      epoch := epoch + 1;
    }

    method UpdateRole(ctx: Context, id: RoleId, name: Option<string>, description: Option<string>, expected: nat)
      returns (answer: Check<Reason>)
      modifies this
      ensures Performs(old(Rows()), AccessTables.UpdateRole(old(Rows()), ctx, id, name, description, expected), answer, Rows())
    {
      LockNames(Rows(), ctx, id, RolesUpdate, true);
      hide LockSharedRole, Administer, Affected, WithRoleRenamed;
      var locked, affected := LockShared(ctx, id, RolesUpdate, true);
      if locked.Err? {
        return Fail(locked.error);
      }
      var check := RequireAdministration(locked.value, affected, Update);
      if check.Fail? {
        return check;
      }
      if roles[id].version != expected {
        return Fail(StaleRoleVersion);
      }
      CommitNames(id, name, description);
      return Pass;
    }

    method CommitNames(id: RoleId, name: Option<string>, description: Option<string>)
      requires id in roles
      modifies this
      ensures Rows() == WithRoleRenamed(old(Rows()), id, name, description)
    {
      var row := roles[id];
      var changed := false;
      if name.Some? && name.value != row.name {
        row := row.(name := name.value);
        changed := true;
      }
      if description.Some? && description.value != row.description {
        row := row.(description := description.value);
        changed := true;
      }
      if changed {
        roles := roles[id := row.(version := row.version + 1)];
        epoch := epoch + 1;
      }
    }

    method SetRoleActive(ctx: Context, id: RoleId, active: bool, expected: nat) returns (answer: Check<Reason>)
      modifies this
      ensures Performs(old(Rows()), AccessTables.SetRoleActive(old(Rows()), ctx, id, active, expected), answer, Rows())
    {
      LockNames(Rows(), ctx, id, RolesStatusUpdate, true);
      hide LockSharedRole, Administer, Affected, WithRoleActive, Tables.HoldersOf;
      var locked, affected := LockShared(ctx, id, RolesStatusUpdate, true);
      if locked.Err? {
        return Fail(locked.error);
      }
      var check := RequireAdministration(locked.value, affected, if active then Enable else Disable);
      if check.Fail? {
        return check;
      }
      if roles[id].version != expected {
        return Fail(StaleRoleVersion);
      }
      CommitActive(id, active, locked.value.holders);
      return Pass;
    }

    method CommitActive(id: RoleId, active: bool, holders: set<UserId>)
      requires id in roles && holders == Rows().HoldersOf(id)
      modifies this
      ensures Rows() == WithRoleActive(old(Rows()), id, active)
    {
      if roles[id].active != active {
        roles := roles[id := roles[id].(active := active)];
        BumpSharedAuthority(id, holders);
      }
    }

    method SoftDeleteRole(ctx: Context, id: RoleId, expected: nat) returns (answer: Check<Reason>)
      modifies this
      ensures Performs(old(Rows()), AccessTables.SoftDeleteRole(old(Rows()), ctx, id, expected), answer, Rows())
    {
      LockNames(Rows(), ctx, id, RolesDelete, true);
      hide LockSharedRole, Administer, Affected, WithoutRole, Tables.HoldersOf;
      var locked, affected := LockShared(ctx, id, RolesDelete, true);
      if locked.Err? {
        return Fail(locked.error);
      }
      var check := RequireAdministration(locked.value, affected, Delete);
      if check.Fail? {
        return check;
      }
      if roles[id].version != expected {
        return Fail(StaleRoleVersion);
      }
      CommitDeletion(id, locked.value.holders);
      return Pass;
    }

    method CommitDeletion(id: RoleId, holders: set<UserId>)
      requires id in roles && holders == Rows().HoldersOf(id)
      modifies this
      ensures Rows() == WithoutRole(old(Rows()), id)
    {
      Tombstone(id);
      BumpSharedAuthority(id, holders);
    }

    /** Retires the role row and tombstones its live bindings and grants. */
    method Tombstone(id: RoleId)
      requires id in roles
      modifies this`roles, this`bindings, this`grants
      ensures var t := old(Rows());
              Rows() == t.(roles := t.roles[id := t.roles[id].(active := false, deleted := true)],
                           bindings := (set b | b in t.bindings && b.1 != id),
                           grants := (set g | g in t.grants && g.0 != id))
    {
      roles := roles[id := roles[id].(active := false, deleted := true)];
      bindings := set b | b in bindings && b.1 != id;
      grants := set g | g in grants && g.0 != id;
    }

    method ChangeRolePermissions(ctx: Context, id: RoleId, requested: set<PermissionId>, operation: RoleOperation,
                                 expected: nat) returns (answer: Check<Reason>)
      modifies this
      ensures Performs(old(Rows()), AccessTables.ChangeRolePermissions(old(Rows()), ctx, id, requested, operation, expected),
                       answer, Rows())
    {
      var required := if operation == Bind then RolesPermissionsBind else RolesPermissionsUnbind;
      LockNames(Rows(), ctx, id, required, false);
      hide LockSharedRole, AdministerPermissions, Affected, WithPermissions, PermissionsAfter, Tables.HoldersOf;
      if requested == {} {
        return Fail(PermissionIdsRequired);
      }
      var locked, affected := LockShared(ctx, id, required, false);
      if locked.Err? {
        return Fail(locked.error);
      }
      if !(requested <= catalog.Keys) {
        return Fail(UnknownPermissionId);
      }
      var keys := set p | p in requested :: catalog[p];
      if !(keys <= SUPER_ADMIN_PERMISSIONS) {
        return Fail(PermissionOutsideControlPlane);
      }
      var after := PermissionsAfter(operation, locked.value.before.permissions, keys);
      var check := RequirePermissionsChange(locked.value, affected, operation, after);
      if check.Fail? {
        return check;
      }
      if roles[id].version != expected {
        return Fail(StaleRoleVersion);
      }
      CommitPermissions(id, operation, keys, locked.value.holders);
      return Pass;
    }

    /** Binding inserts the missing rows, unbinding tombstones the requested ones. */
    method CommitPermissions(id: RoleId, operation: RoleOperation, keys: set<Permission>, holders: set<UserId>)
      requires id in roles && holders == Rows().HoldersOf(id)
      modifies this
      ensures Rows() == WithPermissions(old(Rows()), id, PermissionsAfter(operation, old(Rows()).PermissionsOf(id), keys))
    {
      var before := Rows().PermissionsOf(id);
      var after := PermissionsAfter(operation, before, keys);
      if before != after {
        ghost var kept := (set g | g in grants && g.0 != id) + GrantRows(id, after);
        if operation == Bind {
          grants := grants + GrantRows(id, keys - before);
        } else {
          grants := grants - GrantRows(id, keys);
        }
        assert forall r, p :: (r, p) in grants <==> (r, p) in kept;
        assert grants == kept;
        BumpSharedAuthority(id, holders);
      }
    }

    // ----- new users and the registration switch -----

    /** The one entrance for new users, whatever called it. */
    method Provision(id: UserId, name: string) returns (answer: Check<Reason>)
      modifies this
      ensures Performs(old(Rows()), AccessTables.Provision(old(Rows()), id, name), answer, Rows())
    {
      if id in users || exists u :: u in users && users[u].name == name {
        return Fail(UserIdentityExists);
      }
      var base := RoleWithKey(Rows(), UserKey);
      if base.None? {
        return Fail(DefaultUserRoleMissing);
      }
      if !IsDefaultRole(roles[base.value]) {
        return Fail(DefaultUserRoleMismatch);
      }
      users := users[id := UserRow(name, true, false, false, 0, 1)];
      bindings := bindings + {(id, base.value)};
      epoch := epoch + 1;
      return Pass;
    }

    method Register(id: UserId, name: string) returns (answer: Check<Reason>)
      modifies this
      ensures Performs(old(Rows()), AccessTables.Register(old(Rows()), id, name), answer, Rows())
    {
      hide AccessTables.Provision;
      if !registrationOpen {
        return Fail(RegistrationClosed);
      }
      answer := Provision(id, name);
    }

    method CreateUser(ctx: Context, id: UserId, name: string) returns (answer: Check<Reason>)
      modifies this
      ensures Performs(old(Rows()), AccessTables.CreateUser(old(Rows()), ctx, id, name), answer, Rows())
    {
      hide CurrentActor, AccessTables.Provision;
      var actor := RequireCurrentActor(ctx);
      if actor.Err? {
        return Fail(actor.error);
      }
      if UsersCreate !in actor.value.permissions {
        return Fail(MissingOperationPermission);
      }
      answer := Provision(id, name);
    }

    method SetRegistration(ctx: Context, open: bool) returns (answer: Check<Reason>)
      modifies this
      ensures Performs(old(Rows()), AccessTables.SetRegistration(old(Rows()), ctx, open), answer, Rows())
    {
      hide CurrentActor;
      var actor := RequireCurrentActor(ctx);
      if actor.Err? {
        return Fail(actor.error);
      }
      if !actor.value.isSuperAdmin || RegistrationConfigure !in actor.value.permissions {
        return Fail(RegistrationSettingRequiresSuperAdmin);
      }
      registrationOpen := open;
      return Pass;
    }

    // ----- requests -----

    /** One request is one step of the access machine, and keeps its invariant. */
    method Execute(request: Request) returns (answer: Check<Reason>)
      modifies this
      ensures Performs(old(Rows()), Apply(old(Rows()), request), answer, Rows())
      ensures Rows() == Next(old(Rows()), request)
      ensures Inv(old(Rows())) ==> Preserved(old(Rows()), Rows())
    {
      ghost var before := Rows();
      answer := Dispatch(request);
      PerformedIsNext(before, request, answer, Rows());
      if Inv(before) {
        NextPreserves(before, request);
      }
      hide *;
    }

    method Dispatch(request: Request) returns (answer: Check<Reason>)
      modifies this
      ensures Performs(old(Rows()), Apply(old(Rows()), request), answer, Rows())
    {
      hide AccessTables.UpdateUserStatus, AccessTables.RevokeUserSessions, AccessTables.ResetUserPassword,
           AccessTables.ChangeUserRoles, AccessTables.CreateRole, AccessTables.UpdateRole, AccessTables.SetRoleActive,
           AccessTables.SoftDeleteRole, AccessTables.ChangeRolePermissions, AccessTables.CreateUser,
           AccessTables.SetRegistration, AccessTables.Register, Performs;
      match request
      case UpdateUserStatusRequest(ctx, target, active) => answer := UpdateUserStatus(ctx, target, active);
      case RevokeUserSessionsRequest(ctx, target) => answer := RevokeUserSessions(ctx, target);
      case ResetUserPasswordRequest(ctx, target) => answer := ResetUserPassword(ctx, target);
      case ChangeUserRolesRequest(ctx, target, ids, operation) => answer := ChangeUserRoles(ctx, target, ids, operation);
      case CreateRoleRequest(ctx, id, key, name, description, tier) =>
        answer := CreateRole(ctx, id, key, name, description, tier);
      case UpdateRoleRequest(ctx, id, name, description, expected) =>
        answer := UpdateRole(ctx, id, name, description, expected);
      case SetRoleActiveRequest(ctx, id, active, expected) => answer := SetRoleActive(ctx, id, active, expected);
      case SoftDeleteRoleRequest(ctx, id, expected) => answer := SoftDeleteRole(ctx, id, expected);
      case ChangeRolePermissionsRequest(ctx, id, ids, operation, expected) =>
        answer := ChangeRolePermissions(ctx, id, ids, operation, expected);
      case CreateUserRequest(ctx, id, name) => answer := CreateUser(ctx, id, name);
      case SetRegistrationRequest(ctx, open) => answer := SetRegistration(ctx, open);
      case RegisterRequest(id, name) => answer := Register(id, name);
    }

    /** A store that executes requests goes through a run of the access machine. */
    method ExecuteAll(requests: seq<Request>)
      modifies this
      ensures Rows() == AccessTables.Run(old(Rows()), requests)
      ensures Inv(old(Rows())) ==> Preserved(old(Rows()), Rows())
    {
      hide *;
      ghost var before := Rows();
      AllRequests(requests);
      for k := 0 to |requests|
        invariant AccessTables.Run(before, requests) == AccessTables.Run(Rows(), requests[k..])
      {
        RunStep(Rows(), requests, k);
        var _ := Execute(requests[k]);
      }
      RunEnds(Rows(), requests);
      if Inv(before) {
        RunPreserves(before, requests);
      }
    }
  }

  lemma RequestableRoles(t: Tables, operation: RoleOperation, target: UserId, ids: set<RoleId>)
    requires forall r :: r in ids ==> Requestable(t, operation, target, r)
    ensures forall r :: r in ids ==> r in t.roles
  {
  }

  /** A locked role is the one asked for, with its live holders. */
  lemma LockNames(t: Tables, ctx: Context, id: RoleId, required: Permission, includeInactive: bool)
    ensures var locked := LockSharedRole(t, ctx, id, required, includeInactive);
            locked.Ok? ==>
              id in t.roles && locked.value.before.roleId == id && locked.value.holders == t.HoldersOf(id)
              && locked.value.before.permissions == t.PermissionsOf(id)
  {
    hide LockedActor, RoleVisible, Tables.HoldersOf, Tables.PermissionsOf;
  }

  lemma PerformedIsNext(before: Tables, request: Request, answer: Check<Reason>, after: Tables)
    requires Performs(before, Apply(before, request), answer, after)
    ensures after == Next(before, request)
  {
    hide Apply;
  }

  lemma AllRequests(requests: seq<Request>)
    ensures requests[0..] == requests
  {
  }

  lemma RunStep(t: Tables, requests: seq<Request>, k: nat)
    requires k < |requests|
    ensures AccessTables.Run(t, requests[k..]) == AccessTables.Run(Next(t, requests[k]), requests[k + 1..])
  {
    hide Next;
    assert requests[k..][0] == requests[k] && requests[k..][1..] == requests[k + 1..];
  }

  lemma RunEnds(t: Tables, requests: seq<Request>)
    ensures AccessTables.Run(t, requests[|requests|..]) == t
  {
  }
}
