/**
 The tables as migrated and bootstrapped, with the permission catalogue, one
 registered user and one custom role: the initial condition of the access
 machine holds, and transactions of every kind commit from there.
 */
module AccessSeed {
  import opened Wrappers
  import opened Domain
  import opened Policy
  import opened AccessTables
  import opened AccessInvariant
  import opened AccessSuperAdmin

  const SUPER_ROLE: RoleId := 0
  const ADMIN_ROLE: RoleId := 1
  const USER_ROLE: RoleId := 2
  const EDITOR_ROLE: RoleId := 3
  const OPERATOR: UserId := 0
  const MEMBER: UserId := 1

  function SeededRoles(): map<RoleId, RoleRow> {
    map[SUPER_ROLE := RoleRow(SuperAdminKey, "Super administrator", "", 1000, true, false, true, true, true, 0),
        ADMIN_ROLE := RoleRow(AdminKey, "Administrator", "", 500, true, false, true, false, false, 0),
        USER_ROLE := RoleRow(UserKey, "User", "", 0, true, false, true, false, false, 0),
        EDITOR_ROLE := RoleRow(CustomKey("editor"), "Editor", "", 100, true, false, false, false, false, 0)]
  }

  function Catalogue(): map<PermissionId, Permission> {
    map[0 := PermissionsRead, 1 := RolesRead, 2 := RolesCreate, 3 := RolesUpdate, 4 := RolesStatusUpdate, 5 := RolesDelete,
        6 := RolesAssign, 7 := RolesRevoke, 8 := RolesPermissionsBind, 9 := RolesPermissionsUnbind, 10 := UsersRead,
        11 := UsersCreate, 12 := UsersStatusUpdate, 13 := UsersPasswordReset, 14 := UsersSessionsRevoke,
        15 := RegistrationConfigure, 16 := ProjectsRead, 17 := ProjectsUpdate]
  }

  function Seeded(): Tables {
    Tables(map[OPERATOR := UserRow("operator", true, false, false, 0, 1), MEMBER := UserRow("member", true, false, false, 0, 1)],
           SeededRoles(),
           {(OPERATOR, SUPER_ROLE), (OPERATOR, USER_ROLE), (MEMBER, USER_ROLE), (MEMBER, EDITOR_ROLE)},
           (set p | p in SUPER_ADMIN_PERMISSIONS :: (SUPER_ROLE, p)) + (set p | p in ADMIN_PERMISSIONS :: (ADMIN_ROLE, p))
           + {(EDITOR_ROLE, ProjectsRead)},
           0, true, Catalogue())
  }

  lemma SeededGrants()
    ensures forall r, p :: (r, p) in Seeded().grants <==>
              || (r == SUPER_ROLE && p in SUPER_ADMIN_PERMISSIONS) || (r == ADMIN_ROLE && p in ADMIN_PERMISSIONS)
              || (r == EDITOR_ROLE && p == ProjectsRead)
    ensures Seeded().PermissionsOf(SUPER_ROLE) == SUPER_ADMIN_PERMISSIONS
    ensures Seeded().PermissionsOf(ADMIN_ROLE) == ADMIN_PERMISSIONS
    ensures Seeded().PermissionsOf(USER_ROLE) == {}
  {
  }

  lemma SeededRows()
    ensures var t := Seeded();
            && t.roles == SeededRoles() && t.users.Keys == {OPERATOR, MEMBER} && t.catalog == Catalogue()
            && t.users[OPERATOR] == UserRow("operator", true, false, false, 0, 1)
            && t.users[MEMBER] == UserRow("member", true, false, false, 0, 1)
            && t.bindings == {(OPERATOR, SUPER_ROLE), (OPERATOR, USER_ROLE), (MEMBER, USER_ROLE), (MEMBER, EDITOR_ROLE)}
  {
  }

  lemma SeededBindings()
    ensures Seeded().RolesOf(OPERATOR) == {SUPER_ROLE, USER_ROLE} && Seeded().RolesOf(MEMBER) == {USER_ROLE, EDITOR_ROLE}
    ensures forall u :: u != OPERATOR && u != MEMBER ==> Seeded().RolesOf(u) == {}
    ensures Seeded().HoldersOf(EDITOR_ROLE) == {MEMBER}
  {
  }

  lemma SeededFew(u: UserId)
    ensures |Seeded().RolesOf(u)| <= 2
  {
    SeededBindings();
    hide Seeded, Tables.RolesOf, Tables.HoldersOf;
  }

  lemma SeededBounded()
    ensures Bounded(Seeded())
  {
    var t := Seeded();
    SeededRows();
    assert (OPERATOR, USER_ROLE) in t.bindings && (MEMBER, USER_ROLE) in t.bindings && t.roles[USER_ROLE].key == UserKey;
    hide Seeded, Tables.RolesOf, SeededRoles;
    forall u: UserId ensures |t.RolesOf(u)| <= MAX_ROLES_PER_USER {
      SeededFew(u);
    }
    assert HoldsBase(t, OPERATOR) && HoldsBase(t, MEMBER);
  }

  lemma SeededHoldsSuper()
    ensures forall u :: HoldsSuper(Seeded(), u) <==> u == OPERATOR
  {
    var t := Seeded();
    assert (OPERATOR, SUPER_ROLE) in t.bindings && t.roles[SUPER_ROLE].isSuperAdmin;
    assert forall u, r :: (u, r) in t.bindings && r in t.roles && t.roles[r].isSuperAdmin ==> u == OPERATOR;
    hide Seeded;
  }

  lemma SeededSuper()
    ensures OneSuperAdmin(Seeded())
  {
    SeededHoldsSuper();
    hide Seeded, HoldsSuper;
    assert HoldsSuper(Seeded(), OPERATOR);
  }

  lemma SeededRolesShaped(r: RoleId)
    requires r in SeededRoles()
    ensures r == SUPER_ROLE || r == ADMIN_ROLE || r == USER_ROLE || r == EDITOR_ROLE
    ensures RoleShape(SeededRoles()[r]) && !SeededRoles()[r].deleted
    ensures SeededRoles()[r].isSystem <==> !SeededRoles()[r].key.CustomKey?
  {
  }

  lemma SeededShapes()
    ensures RolesWellShaped(Seeded())
  {
    SeededRows();
    hide Seeded, RoleShape;
    forall r | r in SeededRoles() ensures RoleShape(SeededRoles()[r]) && (SeededRoles()[r].isSystem <==> !SeededRoles()[r].key.CustomKey?) {
      SeededRolesShaped(r);
    }
  }

  lemma SeededResolves()
    ensures RowsResolve(Seeded())
  {
    var t := Seeded();
    SeededRows();
    SeededGrants();
    hide Seeded;
    forall u, r | (u, r) in t.bindings ensures u in t.users && r in t.roles && !t.roles[r].deleted {
    }
    forall r, p | (r, p) in t.grants ensures r in t.roles && !t.roles[r].deleted {
    }
  }

  lemma AdminWithinSuper()
    ensures ADMIN_PERMISSIONS <= SUPER_ADMIN_PERMISSIONS && RegistrationConfigure !in ADMIN_PERMISSIONS
    ensures ProjectsRead in SUPER_ADMIN_PERMISSIONS && ProjectsUpdate in SUPER_ADMIN_PERMISSIONS
  {
  }

  lemma SeededGrantsSound()
    ensures GrantsSound(Seeded())
  {
    var t := Seeded();
    SeededRows();
    SeededGrants();
    AdminWithinSuper();
    hide Seeded, Tables.PermissionsOf;
    forall r | r in t.roles && !t.roles[r].key.CustomKey? ensures t.PermissionsOf(r) == SeededPermissions(t.roles[r].key) {
      SeededRolesShaped(r);
    }
    forall r, p | (r, p) in t.grants ensures p in SUPER_ADMIN_PERMISSIONS {
    }
    forall r, p | (r, p) in t.grants && r in t.roles && !t.roles[r].isSuperAdmin ensures p != RegistrationConfigure {
    }
  }

  /** The seeded tables satisfy the whole invariant, so every theorem about runs applies from there. */
  lemma SeededIsLegal()
    ensures Inv(Seeded())
  {
    hide RolesWellShaped, RowsResolve, GrantsSound, Bounded, OneSuperAdmin;
    SeededShapes();
    SeededResolves();
    SeededGrantsSound();
    SeededBounded();
    SeededSuper();
  }

  function Operator(): Context {
    Context(OPERATOR, 0)
  }

  lemma SeededSession()
    ensures SuperSession(Seeded(), Operator())
  {
    SeededRows();
    SeededHoldsSuper();
    hide Seeded, HoldsSuper;
  }

  lemma SeededMember()
    ensures var t := Seeded();
            && t.Live(MEMBER) && !t.users[MEMBER].isProtected && t.users[MEMBER].active
            && t.Counts(ADMIN_ROLE, false) && !t.roles[ADMIN_ROLE].isSuperAdmin
            && |t.RolesOf(MEMBER) + {ADMIN_ROLE}| <= MAX_ROLES_PER_USER
  {
    SeededRows();
    SeededBindings();
    hide Seeded, Tables.RolesOf, Tables.HoldersOf;
  }

  /** From the seeded tables the operator can disable the member and end the member's sessions. */
  lemma SeededUserTransactionsCommit()
    ensures UpdateUserStatus(Seeded(), Operator(), MEMBER, false).Ok? && RevokeUserSessions(Seeded(), Operator(), MEMBER).Ok?
  {
    assert Operator().userId != MEMBER;
    hide *;
    SeededIsLegal();
    SeededSession();
    SeededMember();
    SuperAdministersUsers(Seeded(), Operator(), MEMBER, false);
  }

  lemma SeededPromotion(ids: set<RoleId>)
    requires ids == {ADMIN_ROLE}
    ensures var t := Seeded();
            ids != {} && |t.RolesOf(MEMBER) + ids| <= MAX_ROLES_PER_USER
            && forall r :: r in ids ==> t.Counts(r, false) && !t.roles[r].isSuperAdmin
  {
    SeededMember();
    hide Seeded, Tables.RolesOf, Tables.Counts;
  }

  /** The operator can make the member an administrator. */
  lemma SeededBindingCommits(ids: set<RoleId>)
    requires ids == {ADMIN_ROLE}
    ensures ChangeUserRoles(Seeded(), Operator(), MEMBER, ids, Bind).Ok?
  {
    assert Operator().userId != MEMBER;
    hide *;
    SeededIsLegal();
    SeededSession();
    SeededMember();
    SeededPromotion(ids);
    SuperBindsRoles(Seeded(), Operator(), MEMBER, ids);
  }

  lemma SeededEditor()
    ensures var t := Seeded();
            && t.Counts(EDITOR_ROLE, false) && t.Counts(EDITOR_ROLE, true) && !t.roles[EDITOR_ROLE].isSystem
            && t.roles[EDITOR_ROLE].version == 0 && HeldByOthers(t, Operator().userId, EDITOR_ROLE)
            && {17} <= t.catalog.Keys && t.catalog[17] in SUPER_ADMIN_PERMISSIONS && t.catalog[17] != RegistrationConfigure
  {
    SeededRows();
    SeededBindings();
    AdminWithinSuper();
    hide Seeded, Tables.RolesOf, Tables.HoldersOf;
    assert 17 in Catalogue() && Catalogue()[17] == ProjectsUpdate;
  }

  /** And can extend, disable and delete the custom role the member holds. */
  lemma SeededRoleTransactionsCommit()
    ensures var t := Seeded();
            ChangeRolePermissions(t, Operator(), EDITOR_ROLE, {17}, Bind, 0).Ok?
            && SetRoleActive(t, Operator(), EDITOR_ROLE, false, 0).Ok? && SoftDeleteRole(t, Operator(), EDITOR_ROLE, 0).Ok?
  {
    hide *;
    SeededIsLegal();
    SeededSession();
    SeededEditor();
    SuperChangesPermissions(Seeded(), Operator(), EDITOR_ROLE, {17}, Bind);
    SuperAdministersRoles(Seeded(), Operator(), EDITOR_ROLE, None, None, false);
  }
}
