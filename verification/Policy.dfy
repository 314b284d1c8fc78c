/** The pure authorization decisions, early return by early return. */
module Policy {
  import opened Domain

  datatype Reason =
    // policy denials
    | MissingOperationPermission
    | ActorInactive
    | AffectedSubjectNotManageable
    | AffectedSubjectNotStrictlyLower
    | PermissionCeilingExceeded
    | SelfManagementForbidden
    | TargetInactive
    | ProtectedSubject
    | SuperAdminAssignmentOfflineOnly
    | DefaultUserRoleRequired
    | SuperAdminRequired
    | RoleNotStrictlyLower
    | TargetNotStrictlyLower
    | CustomRoleTierOutOfRange
    | SystemRoleImmutable
    | IndirectSelfChangeForbidden
    | PermissionOutsideControlPlane
    | SystemOnlyPermission
    // request and lookup failures
    | ActorMissing
    | ActorNoLongerActive
    | TargetUserNotFound
    | RoleIdsRequired
    | PermissionIdsRequired
    | RoleNotFound
    | UserRoleLimitExceeded
    | ReservedRoleKey
    | RoleKeyExists
    | StaleRoleVersion
    | UnknownPermissionId
    | UserIdentityExists
    | DefaultUserRoleMissing
    | DefaultUserRoleMismatch
    | RegistrationClosed
    | RegistrationSettingRequiresSuperAdmin
    | DuplicateId

  datatype Decision = Allow | Deny(reason: Reason)

  datatype RoleOperation = Bind | Unbind

  datatype Administration = Update | Enable | Disable | Delete

  predicate WithinAuthority(actor: AuthoritySnapshot, permissions: set<Permission>) {
    permissions <= SUPER_ADMIN_PERMISSIONS && permissions <= actor.permissions
  }

  function BasicActorCheck(actor: AuthoritySnapshot, required: Permission): Decision {
    if required !in actor.permissions then Deny(MissingOperationPermission)
    else if !actor.active then Deny(ActorInactive)
    else Allow
  }

  predicate UserVisible(actor: AuthoritySnapshot, target: AuthoritySnapshot) {
    actor.isSuperAdmin ||
    (actor.userId != target.userId && !target.isProtected && target.tier < actor.tier)
  }

  predicate RoleVisible(actor: AuthoritySnapshot, role: RoleGrant) {
    actor.isSuperAdmin ||
    (!role.isProtected && !role.isSuperAdmin && role.tier < actor.tier)
  }

  function AffectedManageable(actor: AuthoritySnapshot, affected: seq<AuthoritySnapshot>): Decision {
    if affected == [] then
      Allow
    else
      var subject := affected[0];
      if subject.isProtected || actor.userId == subject.userId then Deny(AffectedSubjectNotManageable)
      else if actor.tier <= subject.tier then Deny(AffectedSubjectNotStrictlyLower)
      else if !WithinAuthority(actor, subject.permissions) then Deny(PermissionCeilingExceeded)
      else AffectedManageable(actor, affected[1..])
  }

  function ChangedRolesCheck(operation: RoleOperation, actor: AuthoritySnapshot, changed: seq<RoleGrant>): Decision {
    if changed == [] then
      Allow
    else
      var role := changed[0];
      if role.key == SuperAdminKey || role.isProtected then Deny(SuperAdminAssignmentOfflineOnly)
      else if operation == Unbind && role.key == UserKey then Deny(DefaultUserRoleRequired)
      else if role.key == AdminKey && !actor.isSuperAdmin then Deny(SuperAdminRequired)
      else if !WithinAuthority(actor, role.permissions) then Deny(PermissionCeilingExceeded)
      else if actor.tier <= role.tier then Deny(RoleNotStrictlyLower)
      else ChangedRolesCheck(operation, actor, changed[1..])
  }

  function DecideRoleChange(operation: RoleOperation, actor: AuthoritySnapshot, before: AuthoritySnapshot,
                            after: AuthoritySnapshot, changed: seq<RoleGrant>): Decision
  {
    var basic := BasicActorCheck(actor, if operation == Bind then RolesAssign else RolesRevoke);
    if basic.Deny? then basic
    else if actor.userId == before.userId then Deny(SelfManagementForbidden)
    else if operation == Bind && !before.active then Deny(TargetInactive)
    else if before.isProtected then Deny(ProtectedSubject)
    else
      var perRole := ChangedRolesCheck(operation, actor, changed);
      if perRole.Deny? then perRole
      else if actor.tier <= before.tier then Deny(TargetNotStrictlyLower)
      else if actor.tier <= after.tier then Deny(TargetNotStrictlyLower)
      else if !WithinAuthority(actor, before.permissions) then Deny(PermissionCeilingExceeded)
      else if !WithinAuthority(actor, after.permissions) then Deny(PermissionCeilingExceeded)
      else Allow
  }

  function DecideRoleCreate(actor: AuthoritySnapshot, tier: int): Decision {
    var basic := BasicActorCheck(actor, RolesCreate);
    if basic.Deny? then basic
    else if tier < 1 || tier >= 1000 then Deny(CustomRoleTierOutOfRange)
    else if actor.tier <= tier then Deny(RoleNotStrictlyLower)
    else Allow
  }

  function RequiredFor(operation: Administration): Permission {
    match operation
    case Update => RolesUpdate
    case Enable => RolesStatusUpdate
    case Disable => RolesStatusUpdate
    case Delete => RolesDelete
  }

  function DecideRoleAdministration(operation: Administration, actor: AuthoritySnapshot, role: RoleGrant,
                                    actorHoldsRole: bool, affected: seq<AuthoritySnapshot>): Decision
  {
    var basic := BasicActorCheck(actor, RequiredFor(operation));
    if basic.Deny? then basic
    else if role.isSystem then Deny(SystemRoleImmutable)
    else if actorHoldsRole then Deny(IndirectSelfChangeForbidden)
    else if actor.tier <= role.tier then Deny(RoleNotStrictlyLower)
    else if !WithinAuthority(actor, role.permissions) then Deny(PermissionCeilingExceeded)
    else AffectedManageable(actor, affected)
  }

  function DecideRolePermissionsChange(operation: RoleOperation, actor: AuthoritySnapshot, roleBefore: RoleGrant,
                                       permissionsAfter: set<Permission>, actorHoldsRole: bool,
                                       affectedAfter: seq<AuthoritySnapshot>): Decision
  {
    var basic := BasicActorCheck(actor, if operation == Bind then RolesPermissionsBind else RolesPermissionsUnbind);
    if basic.Deny? then basic
    else if roleBefore.isSystem then Deny(SystemRoleImmutable)
    else if actorHoldsRole then Deny(IndirectSelfChangeForbidden)
    else if actor.tier <= roleBefore.tier then Deny(RoleNotStrictlyLower)
    else if !WithinAuthority(actor, roleBefore.permissions) then Deny(PermissionCeilingExceeded)
    else if !(permissionsAfter <= SUPER_ADMIN_PERMISSIONS) then Deny(PermissionOutsideControlPlane)
    else if RegistrationConfigure in permissionsAfter then Deny(SystemOnlyPermission)
    else if !(permissionsAfter <= actor.permissions) then Deny(PermissionCeilingExceeded)
    else AffectedManageable(actor, affectedAfter)
  }

  function DecideUserAdministration(actor: AuthoritySnapshot, before: AuthoritySnapshot, required: Permission): Decision {
    var basic := BasicActorCheck(actor, required);
    if basic.Deny? then basic
    else if actor.userId == before.userId then Deny(SelfManagementForbidden)
    else if before.isProtected then Deny(ProtectedSubject)
    else if actor.tier <= before.tier then Deny(TargetNotStrictlyLower)
    else if !WithinAuthority(actor, before.permissions) then Deny(PermissionCeilingExceeded)
    else Allow
  }

  /** A subject the actor may act on: another, unprotected identity strictly below, inside the actor's permissions. */
  predicate StrictlyBelow(actor: AuthoritySnapshot, subject: AuthoritySnapshot) {
    && subject.userId != actor.userId
    && !subject.isProtected
    && subject.tier < actor.tier
    && WithinAuthority(actor, subject.permissions)
  }

  /** The scan over affected subjects allows exactly when every subject is strictly below. */
  lemma {:induction false} AffectedManageableIff(actor: AuthoritySnapshot, affected: seq<AuthoritySnapshot>)
    ensures AffectedManageable(actor, affected).Allow? <==>
            forall i :: 0 <= i < |affected| ==> StrictlyBelow(actor, affected[i])
  {
    if affected != [] {
      AffectedManageableIff(actor, affected[1..]);
      assert forall i :: 1 <= i < |affected| ==> affected[i] == affected[1..][i - 1];
      if forall i :: 0 <= i < |affected| ==> StrictlyBelow(actor, affected[i]) {
        assert StrictlyBelow(actor, affected[0]);
        forall i | 0 <= i < |affected[1..]| ensures StrictlyBelow(actor, affected[1..][i]) {
          assert affected[1..][i] == affected[i + 1];
        }
      }
    }
  }

  /** What an allowed list of changed roles guarantees about each of them. */
  lemma {:induction false} ChangedRolesAllowed(operation: RoleOperation, actor: AuthoritySnapshot, changed: seq<RoleGrant>)
    ensures ChangedRolesCheck(operation, actor, changed).Allow? <==>
            forall i :: 0 <= i < |changed| ==>
              && !changed[i].isProtected
              && changed[i].key != SuperAdminKey
              && !(operation == Unbind && changed[i].key == UserKey)
              && (changed[i].key == AdminKey ==> actor.isSuperAdmin)
              && WithinAuthority(actor, changed[i].permissions)
              && changed[i].tier < actor.tier
  {
    if changed != [] {
      ChangedRolesAllowed(operation, actor, changed[1..]);
      assert forall i :: 1 <= i < |changed| ==> changed[i] == changed[1..][i - 1];
      assert forall i :: 0 <= i < |changed[1..]| ==> changed[1..][i] == changed[i + 1];
    }
  }
}
