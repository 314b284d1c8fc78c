/**
 Authority values: permission keys, role grants and the snapshot of what one
 user may do.  A snapshot's roles are a map keyed by role id, which is the
 duplicate-free, id-sorted tuple of the program without its order.
 */
module Domain {
  type UserId = nat
  type RoleId = nat
  type PermissionId = nat

  datatype Permission =
    | PermissionsRead
    | RolesRead
    | RolesCreate
    | RolesUpdate
    | RolesStatusUpdate
    | RolesDelete
    | RolesAssign
    | RolesRevoke
    | RolesPermissionsBind
    | RolesPermissionsUnbind
    | UsersRead
    | UsersCreate
    | UsersStatusUpdate
    | UsersPasswordReset
    | UsersSessionsRevoke
    | RegistrationConfigure
    | ProjectsRead
    | ProjectsUpdate
    | Unlisted(key: string) // a stored permission outside the control plane

  const ADMIN_PERMISSIONS: set<Permission> := {
    PermissionsRead, RolesRead, RolesCreate, RolesUpdate, RolesStatusUpdate, RolesAssign, RolesRevoke,
    RolesPermissionsBind, RolesPermissionsUnbind, UsersRead, UsersCreate, UsersStatusUpdate,
    UsersPasswordReset, UsersSessionsRevoke, ProjectsRead, ProjectsUpdate
  }

  const SUPER_ADMIN_PERMISSIONS: set<Permission> := ADMIN_PERMISSIONS + {RolesDelete, RegistrationConfigure}

  /** A role key: the three reserved texts `super_admin`, `admin` and `user`, or any other text. */
  datatype RoleKey = SuperAdminKey | AdminKey | UserKey | CustomKey(text: string)

  const MAX_ROLES_PER_USER: nat := 10

  datatype RoleGrant = RoleGrant(
    roleId: RoleId,
    key: RoleKey,
    tier: nat,
    permissions: set<Permission>,
    isSystem: bool,
    isProtected: bool,
    isSuperAdmin: bool
  )

  datatype AuthoritySnapshot = AuthoritySnapshot(
    userId: UserId,
    active: bool,
    userProtected: bool,
    tokenVersion: nat,
    roles: map<RoleId, RoleGrant>,
    permissions: set<Permission>,
    tier: nat,
    isProtected: bool,
    isSuperAdmin: bool,
    authzVersion: nat
  ) {
    /** The snapshot this one becomes when `role` is held, replacing a grant of the same id. */
    function WithRole(role: RoleGrant): AuthoritySnapshot {
      ReplaceRoles(roles[role.roleId := role])
    }

    function WithoutRole(roleId: RoleId): AuthoritySnapshot {
      ReplaceRoles(roles - {roleId})
    }

    function ReplaceRoles(newRoles: map<RoleId, RoleGrant>): AuthoritySnapshot {
      Build(userId, active, userProtected, tokenVersion, authzVersion, newRoles)
    }
  }

  lemma HasGreatest(tiers: set<nat>)
    requires tiers != {}
    ensures exists top :: top in tiers && forall t :: t in tiers ==> t <= top
  {
    var some :| some in tiers;
    var rest := tiers - {some};
    if rest == {} {
      assert forall t :: t in tiers ==> t in rest || t == some;
    } else {
      HasGreatest(rest);
      var best :| best in rest && forall t :: t in rest ==> t <= best;
      var top := if best < some then some else best;
      assert forall t :: t in tiers ==> t in rest || t == some;
      assert top in tiers && forall t :: t in tiers ==> t <= top;
    }
  }

  /** `max(tiers, default=0)` */
  function Highest(tiers: set<nat>): (top: nat)
    ensures forall t :: t in tiers ==> t <= top
    ensures if tiers == {} then top == 0 else top in tiers
  {
    if tiers == {} then
      0
    else
      HasGreatest(tiers);
      var top :| top in tiers && forall t :: t in tiers ==> t <= top;
      top
  }

  function Build(userId: UserId, active: bool, userProtected: bool, tokenVersion: nat, authzVersion: nat,
                 roles: map<RoleId, RoleGrant>): (snapshot: AuthoritySnapshot)
    ensures snapshot.roles == roles
    ensures forall p :: p in snapshot.permissions <==> exists r :: r in roles && p in roles[r].permissions
    ensures forall r :: r in roles ==> roles[r].tier <= snapshot.tier
    ensures snapshot.tier == 0 || exists r :: r in roles && roles[r].tier == snapshot.tier
  {
    var tiers := set r | r in roles :: roles[r].tier;
    assert forall r :: r in roles ==> roles[r].tier in tiers;
    AuthoritySnapshot(
      userId, active, userProtected, tokenVersion, roles,
      set r, p | r in roles && p in roles[r].permissions :: p,
      Highest(tiers),
      userProtected || exists r :: r in roles && roles[r].isProtected,
      exists r :: r in roles && roles[r].isSuperAdmin,
      authzVersion)
  }

  /** Holding more roles never lowers authority. */
  lemma MoreRolesMoreAuthority(small: AuthoritySnapshot, big: AuthoritySnapshot)
    requires small == small.ReplaceRoles(small.roles) && big == big.ReplaceRoles(big.roles)
    requires forall r :: r in small.roles ==> r in big.roles && big.roles[r] == small.roles[r]
    ensures small.permissions <= big.permissions
    ensures small.tier <= big.tier
    ensures small.isSuperAdmin ==> big.isSuperAdmin
    ensures small.userProtected == big.userProtected && small.isProtected ==> big.isProtected
  {
    var ps := small.permissions;
    forall p | p in ps ensures p in big.permissions {
      var r :| r in small.roles && p in small.roles[r].permissions;
      assert r in big.roles && p in big.roles[r].permissions;
    }
  }

  /** Ids in ascending order, the order in which the program scans them. */
  function Ascending(ids: set<nat>): seq<nat> {
    if ids == {} then [] else Ascending(ids - {Highest(ids)}) + [Highest(ids)]
  }

  ghost predicate StrictlyIncreasing(s: seq<nat>) {
    forall i, j :: 0 <= i < j < |s| ==> s[i] < s[j]
  }

  lemma {:induction false} AscendingMembers(ids: set<nat>)
    ensures |Ascending(ids)| == |ids|
    ensures forall i :: i in Ascending(ids) <==> i in ids
  {
    if ids != {} {
      AscendingMembers(ids - {Highest(ids)});
    }
  }

  lemma {:induction false} AscendingIncreases(ids: set<nat>)
    ensures StrictlyIncreasing(Ascending(ids))
  {
    if ids != {} {
      var rest := Ascending(ids - {Highest(ids)});
      AscendingMembers(ids - {Highest(ids)});
      AscendingIncreases(ids - {Highest(ids)});
      assert forall i :: 0 <= i < |rest| ==> rest[i] in rest;
    }
  }
}
