# Verified model of the FastAPI RBAC template

A Dafny 4.11 model of the stateful protocols in the `postgresql-rbac` project
template and of a few self-contained algorithms around it, with proofs of what
each of them promises.  `dafny verify dfyconfig.toml` checks everything.

The template keeps authority in PostgreSQL and sessions in Redis.  Four
protocols carry most of the difficulty:

* **Access.** `Domain` and `Policy` are the authority values and the pure
  decisions.  `AccessTables` has every transaction as a function on the user,
  role, binding and grant tables; `AccessStore` has the same transactions as
  methods that load, lock, scan and change those tables in place, is proved
  against the functions, and carries the run theorems over to the store.
  `AccessFrame`, `AccessInvariant`, `AccessSteps` and `AccessRuns` prove what
  one transaction and any run of them can do to anybody's authority;
  `AccessEffects` proves exactly when each transaction commits and which of
  them undo each other; `AccessDelivery` gives the resulting rows column by
  column; `AccessSuperAdmin` proves what the super administrator can always do;
  `AccessSeed` shows that the migrated tables are a legal start from which
  every kind of transaction commits; `Listing` ties the list queries and their pages to the visibility
  predicates.
* **Sessions.** `Sessions` is the meaning of the four registry scripts: one
  version mark and the live sessions in login order.  `SessionRegistry` has the
  scripts themselves, changing a hash and two sorted sets in place, and proves
  that they refine it.  `Admission` adds logins, token issue, requests and the
  database row, and proves revocation over every interleaving; `AdmissionRuns`
  adds what a login can count on, and which commits end it.
* **Captcha.** Issue and consume as a read followed by an atomic script, with
  any number of clients between the two (`Captcha`), and which clients succeed
  (`CaptchaRuns`).
* **Login.** Hash work outside row locks, transparent rehashing, password
  change, reset and completed reset, racing on one account row (`Login`), and
  what each of them stores (`LoginDelivery`).

`RepeatedPattern`, `BoundedWork`, `LogBuffer`, `DependencyClosure`, `Quota` and
`Install` are the smaller pieces.

Full authority counts disabled roles, effective authority does not; *strictly
below* means another, unprotected user of lower full tier whose full
permissions lie within the actor's.

## Assumptions

Every Redis script is atomic, and so is every transaction that holds the global
state row or a user row lock.  Ids are fresh, digests are injective, and a hash
verifies exactly the password it was made from.  A Redis key is still there at
the millisecond of its deadline and gone after it.  The access machine starts
in a state that satisfies the schema's constraints and has one super
administrator.

## Where the code differs from what one might expect

* A fixed window admits at most `2 * limit - 1` requests in any interval of one
  window's length, one less than twice the limit, because a key still exists in
  the millisecond of its deadline (`Quota.IntervalLimitReached`).  In that
  millisecond a retry is answered as unavailable, so a client that waits exactly
  as long as its `Retry-After` header says still fails when the time left was a
  whole number of seconds, and only then (`Quota.RetryAllowedAfter`,
  `Quota.RetryAfterHeader`).
* An inspection rejects a stored count of zero that has a deadline, while an
  increment accepts it and starts the window over; in every other key state the
  two agree (`Quota.InspectionPredictsIncrement`).
* The staged copy skips names that the manifest counts, so some sources pass
  every check and can never be installed (`Install.StagedManifest`,
  `Install.ValidSourceNeverInstalled`).
* If a rename of the old tree to the backup is interrupted just after it took
  effect, no rollback runs; the old tree is complete at the backup and the
  target is absent (`Install.InterruptedAfterBackup`; all such faults:
  `Install.Installation.Replace`).
* The list queries recognise a super administrator by role key and flags, the
  policy by flag alone; the two agree only because of the role shape
  constraints (`Listing.ListingNeedsRoleShapes`).
* A correct password change or completed reset that nobody else's commit disturbs
  is still refused when an ordinary login rehashes between its read and its lock,
  and only then; on a hash with the current parameters it always commits
  (`Login.ChangeLosesRace`, `Login.ChangeCommitsExactly`,
  `Login.CurrentHashAlwaysCommits`).
* The visibility checks of the access service never refuse what the policy
  would allow (`AccessEffects.StatusChangeExact`, `AccessEffects.RoleBindingExact`).

## Model

| member | source | states |
|---|---|---|
| AccessRuns.HighWaterMark | skills/fastapi-templates-xtn/assets/postgresql-rbac/app/services/access.py:333-936 | over any run of requests by senders other than the super administrator, registrations included, neither the highest full tier nor the union of full permissions over ordinary users grows |
| AccessRuns.RunPreserves | skills/fastapi-templates-xtn/assets/postgresql-rbac/app/models/access.py:164-215 | every run from a legal state keeps the role shapes, the base role and ten-role limit of each live user, the built-in roles with their grants, and the one super administrator |
| AccessRuns.NoTriggerRaises | skills/fastapi-templates-xtn/assets/postgresql-rbac/alembic/versions/0002_system_roles.py:403-594 | no committed transaction makes the base-role, role-limit, single-super-administrator or built-in-role trigger raise |
| AccessRuns.NoUserTriggerRaises | skills/fastapi-templates-xtn/assets/postgresql-rbac/alembic/versions/0001_single_project_rbac.py:534-591 | the ten-live-role trigger and the base-role trigger stay quiet for every user of a legal state |
| AccessRuns.OnlySuperAdminConfigures | skills/fastapi-templates-xtn/assets/postgresql-rbac/app/core/security/policy.py:215-220 | in every reachable state, full authority containing `registration:configure` belongs only to the holder of the super administrator role |
| AccessRuns.AuthorityChangeVersioned | skills/fastapi-templates-xtn/assets/postgresql-rbac/app/services/access.py:1044-1052 | between any two states of a run, a user whose effective permissions, tier or active flag differ has a strictly greater `authz_version`, and the epoch is strictly greater |
| AccessRuns.EditConsumesVersion | skills/fastapi-templates-xtn/assets/postgresql-rbac/app/services/access.py:238-242 | a role edit that changes anything was sent with the current version and raises it by one |
| AccessRuns.OneWinnerPerVersion | skills/fastapi-templates-xtn/assets/postgresql-rbac/app/services/access.py:238-242 | of two edits of a role sent with one expected version at most one changes anything, whatever runs between them |
| AccessSeed.SeededIsLegal | skills/fastapi-templates-xtn/assets/postgresql-rbac/alembic/versions/0002_system_roles.py:20-100 | the tables as migrated and bootstrapped, with the eighteen catalogue permissions, one registered user and one custom role that user holds, satisfy the whole invariant |
| AccessSeed.SeededUserTransactionsCommit | skills/fastapi-templates-xtn/assets/postgresql-rbac/app/services/access.py:333-430 | from those tables the super administrator's status change and session revocation of the user commit |
| AccessSeed.SeededBindingCommits | skills/fastapi-templates-xtn/assets/postgresql-rbac/app/services/access.py:438-594 | from those tables making the user an administrator commits |
| AccessSeed.SeededRoleTransactionsCommit | skills/fastapi-templates-xtn/assets/postgresql-rbac/app/services/access.py:721-936 | from those tables extending, disabling and deleting the custom role commit |
| AccessSuperAdmin.SuperOutranks | skills/fastapi-templates-xtn/assets/postgresql-rbac/app/core/security/policy.py:27-34 | in every legal state every other user whose row is unprotected is strictly below the super administrator |
| AccessSuperAdmin.SuperAdministersUsers | skills/fastapi-templates-xtn/assets/postgresql-rbac/app/core/security/policy.py:227-281 | in every legal state the super administrator's status change, session revocation and password reset of such a user commit |
| AccessSuperAdmin.SuperBindsRoles | skills/fastapi-templates-xtn/assets/postgresql-rbac/app/core/security/policy.py:101-144 | binding any live active roles but the super administrator's to such an active user commits while at most ten roles result |
| AccessSuperAdmin.SuperAdministersRoles | skills/fastapi-templates-xtn/assets/postgresql-rbac/app/core/security/policy.py:162-187 | renaming, switching and deleting any custom role that only such users hold commits under its current version |
| AccessSuperAdmin.SuperChangesPermissions | skills/fastapi-templates-xtn/assets/postgresql-rbac/app/core/security/policy.py:190-224 | changing the permissions of any such enabled role within the catalogue, the registration switch excepted, commits under its current version |
| AccessSteps.StepContained | skills/fastapi-templates-xtn/assets/postgresql-rbac/app/services/access.py:268-331 | a committed request leaves every live user untouched or strictly below its sender, before and after, with permissions inside the sender's |
| AccessSteps.OutOfReachUntouched | skills/fastapi-templates-xtn/assets/postgresql-rbac/app/core/security/policy.py:86-98 | the sender, protected users and every user not strictly below the sender, by tier or by permissions, keep row, bindings, full and effective authority |
| AccessSteps.StepPreserves | skills/fastapi-templates-xtn/assets/postgresql-rbac/app/services/access.py:333-936 | each committed transaction keeps the whole table invariant |
| AccessSteps.ProvisionedPowerless | skills/fastapi-templates-xtn/assets/postgresql-rbac/app/services/provisioning.py:41-107 | a newly provisioned user has tier zero, no permissions and no protected role |
| AccessFrame.PredictedBindingCommitted | skills/fastapi-templates-xtn/assets/postgresql-rbac/app/services/access.py:504-522 | the snapshot the policy judges for a binding change is the target's full authority rebuilt from the committed tables, up to the version stamp |
| AccessFrame.PredictedPermissionsCommitted | skills/fastapi-templates-xtn/assets/postgresql-rbac/app/services/access.py:861-881 | the snapshot judged for each holder of a changed role is that holder's full authority in the committed tables, up to the version stamp |
| AccessFrame.PermissionsContained | skills/fastapi-templates-xtn/assets/postgresql-rbac/app/core/security/policy.py:190-224 | an allowed permissions change keeps each holder strictly below before and after, and everyone else untouched |
| AccessFrame.DeletionContained | skills/fastapi-templates-xtn/assets/postgresql-rbac/app/services/access.py:764-825 | deleting a role can only shrink authority of users strictly below the sender |
| AccessEffects.RoleBindingExact | skills/fastapi-templates-xtn/assets/postgresql-rbac/app/services/access.py:438-594 | a role binding or removal commits if and only if the sender is current and permitted, each role is assignable, and the target is strictly below the sender with at most ten roles both before and in the resulting tables |
| AccessEffects.RoleAdministrationExact | skills/fastapi-templates-xtn/assets/postgresql-rbac/app/services/access.py:670-825 | renaming, enabling, disabling and deleting a role commit if and only if the version is current, the role is custom and inside the sender's authority, and every live holder is strictly below |
| AccessEffects.RolePermissionsExact | skills/fastapi-templates-xtn/assets/postgresql-rbac/app/services/access.py:827-936 | a permissions change commits if and only if the version is current, the resulting set is inside the sender's authority, and every live holder is strictly below in the resulting tables |
| AccessEffects.StatusChangeExact | skills/fastapi-templates-xtn/assets/postgresql-rbac/app/services/access.py:333-385 | a status change commits if and only if a current, permitted sender acts on a live target strictly below; the separate visibility check adds nothing |
| AccessEffects.SessionRevocationExact | skills/fastapi-templates-xtn/assets/postgresql-rbac/app/services/access.py:396-430 | the same for administrative session revocation |
| AccessEffects.PasswordResetExact | skills/fastapi-templates-xtn/assets/postgresql-rbac/app/services/authentication.py:643-678 | the same for the committing half of an administrative password reset, although it judges visibility on full authority |
| AccessEffects.UnbindUndoesBind | skills/fastapi-templates-xtn/assets/postgresql-rbac/app/services/access.py:531-561 | unbinding roles just bound restores every binding, role and grant row and the target's row but for an authority version two higher |
| AccessEffects.EnableUndoesDisable | skills/fastapi-templates-xtn/assets/postgresql-rbac/app/services/access.py:721-762 | disabling a role takes it out of effective grants only, and enabling it again restores everybody's effective grants |
| AccessEffects.RolePermissionsDelivered | skills/fastapi-templates-xtn/assets/postgresql-rbac/app/services/access.py:883-925 | after a commit the role holds exactly the old permissions with the requested ones added or removed, and other roles theirs |
| AccessEffects.DeletionDelivered | skills/fastapi-templates-xtn/assets/postgresql-rbac/app/services/access.py:784-812 | after a deletion the role has no live binding or grant, and everybody's other grants are as before |
| AccessDelivery.RevocationDelivered | skills/fastapi-templates-xtn/assets/postgresql-rbac/app/services/access.py:422-424 | a committed session revocation leaves the target's row with its token version one higher and every other column and row as it was |
| AccessDelivery.ResetDelivered | skills/fastapi-templates-xtn/assets/postgresql-rbac/app/services/authentication.py:429-436 | so does the transaction that commits an administrative password reset |
| AccessDelivery.StatusDelivered | skills/fastapi-templates-xtn/assets/postgresql-rbac/app/services/access.py:355-370 | a committed status change stores the requested flag with both versions one higher and the epoch one higher, or changes nothing if the flag was that already |
| AccessDelivery.BindingDelivered | skills/fastapi-templates-xtn/assets/postgresql-rbac/app/services/access.py:525-594 | afterwards the target holds all the listed roles, or none of them, every other binding is as before, and only the target's authority version and the epoch step, if anything changed |
| AccessDelivery.CreationDelivered | skills/fastapi-templates-xtn/assets/postgresql-rbac/app/services/access.py:604-668 | a created role has the requested key, name, description and tier, is active and custom at version zero, and nothing else changes but the epoch |
| AccessDelivery.RoleCreationExact | skills/fastapi-templates-xtn/assets/postgresql-rbac/app/core/security/policy.py:147-159 | a role is created if and only if a current permitted sender asks for a tier from 1 to 999 below its own, a fresh id and a fresh key that is not reserved |
| AccessDelivery.RenamingDelivered | skills/fastapi-templates-xtn/assets/postgresql-rbac/app/services/access.py:678-719 | a rename stores the given name and description, keeps what was not given, and steps version and epoch if anything changed |
| AccessDelivery.SwitchDelivered | skills/fastapi-templates-xtn/assets/postgresql-rbac/app/services/access.py:731-762 | enabling or disabling stores the flag and steps the role's version, each live holder's authority version and the epoch, each once |
| AccessDelivery.RetirementDelivered | skills/fastapi-templates-xtn/assets/postgresql-rbac/app/services/access.py:771-825 | deletion retires the row, removes exactly the role's bindings and grants, and steps the same versions |
| AccessDelivery.PermissionVersionsDelivered | skills/fastapi-templates-xtn/assets/postgresql-rbac/app/services/access.py:883-936 | a permissions change that changes anything steps the same versions and touches nothing besides the grants |
| AccessDelivery.NewUserDelivered | skills/fastapi-templates-xtn/assets/postgresql-rbac/app/services/provisioning.py:41-107 | registering or creating adds one active row of the given name at version zero, bound to the base role alone |
| AccessDelivery.NewUserExact | skills/fastapi-templates-xtn/assets/postgresql-rbac/app/services/authentication.py:160-286 | registration succeeds if and only if it is open, creation if and only if the sender is current and permitted, both only for a fresh id and name |
| AccessDelivery.SwitchingRegistration | skills/fastapi-templates-xtn/assets/postgresql-rbac/app/services/authentication.py:128-158 | the registration switch moves to the requested position if and only if the sender is a current super administrator with the permission |
| AccessDelivery.AuthorityMeans | skills/fastapi-templates-xtn/assets/postgresql-rbac/app/repositories/access.py:385-466 | a snapshot has exactly the roles that are bound, live and, for effective authority, active, the union of their grant rows, their highest tier and their flags |
| AccessDelivery.StaleExactly | skills/fastapi-templates-xtn/assets/postgresql-rbac/app/services/access.py:238-242 | a role edit is refused as stale if and only if it would commit under the present version and names another one |
| AccessDelivery.SenderRefusals | skills/fastapi-templates-xtn/assets/postgresql-rbac/app/services/access.py:224-236 | a sender is refused as missing if and only if its row is gone, as no longer active if and only if the row is inactive or at another token version, and is otherwise current |
| AccessDelivery.TargetRefusals | skills/fastapi-templates-xtn/assets/postgresql-rbac/app/services/access.py:268-331 | a target the sender may not see is refused like a missing one, and only after the sender's own permission was checked |
| AccessDelivery.RegistrationRefusals | skills/fastapi-templates-xtn/assets/postgresql-rbac/app/services/authentication.py:160-228 | registration answers closed if and only if the switch is off, and identity taken if and only if it is on and the id or name exists |
| Policy.AffectedManageableIff | skills/fastapi-templates-xtn/assets/postgresql-rbac/app/core/security/policy.py:86-98 | the scan over affected subjects allows if and only if every subject is strictly below the actor |
| Policy.ChangedRolesAllowed | skills/fastapi-templates-xtn/assets/postgresql-rbac/app/core/security/policy.py:120-134 | the per-role scan allows if and only if every listed role is unprotected, permitted and strictly lower |
| Domain.Build | skills/fastapi-templates-xtn/assets/postgresql-rbac/app/core/security/domain.py:185-212 | a snapshot's permissions are the union over its roles and its tier the maximum, zero without roles |
| Domain.MoreRolesMoreAuthority | skills/fastapi-templates-xtn/assets/postgresql-rbac/app/core/security/domain.py:214-232 | holding more roles never lowers tier, permissions, protection or super administrator status |
| AccessStore.LoadGrants | skills/fastapi-templates-xtn/assets/postgresql-rbac/app/repositories/access.py:357-382 | the accumulating loop rebuilds exactly the user's grants from the outer-joined rows in any order |
| AccessStore.QueryGrants | skills/fastapi-templates-xtn/assets/postgresql-rbac/app/repositories/access.py:329-356 | the rows of bindings, live roles and outer-joined grants: one per granted permission, or an empty one for a role without any |
| AccessStore.RbacStore.LoadSnapshot | skills/fastapi-templates-xtn/assets/postgresql-rbac/app/repositories/access.py:502-520 | a snapshot built from the loaded rows is the user's full or effective authority |
| AccessStore.RbacStore.LockActorAndTarget | skills/fastapi-templates-xtn/assets/postgresql-rbac/app/services/access.py:268-331 | the locking helper answers with the sender's effective and the target's full authority, or refuses for the first reason that applies |
| AccessStore.RbacStore.LockShared | skills/fastapi-templates-xtn/assets/postgresql-rbac/app/services/access.py:938-1026 | the locking helper answers with the role, its live holders and their full authority, or refuses for the first reason that applies |
| AccessStore.ScanChangedRoles | skills/fastapi-templates-xtn/assets/postgresql-rbac/app/core/security/policy.py:120-134 | the loop over requested roles returns the first refusal of the per-role check, or none |
| AccessStore.ScanAffected | skills/fastapi-templates-xtn/assets/postgresql-rbac/app/core/security/policy.py:86-98 | the loop over affected subjects returns the first refusal, or none |
| AccessStore.Accumulate | skills/fastapi-templates-xtn/assets/postgresql-rbac/app/services/access.py:504-513 | the loop adds or removes one role of the target's snapshot at a time, ending in the predicted snapshot |
| AccessStore.RbacStore.Execute | skills/fastapi-templates-xtn/assets/postgresql-rbac/app/services/access.py:149-199 | any request executed in place commits or refuses exactly as its transaction prescribes, is one step of the access machine, and keeps the invariant |
| AccessStore.RbacStore.ExecuteAll | skills/fastapi-templates-xtn/assets/postgresql-rbac/app/services/access.py:149-199 | a store executing requests one after another goes through the machine's run, so from a legal state it ends in a legal one with the built-in rows and the super administrator preserved |
| AccessStore.RbacStore.UpdateUserStatus | skills/fastapi-templates-xtn/assets/postgresql-rbac/app/services/access.py:333-385 | the in-place transaction commits what `UpdateUserStatus` prescribes, or refuses with its reason and rolls back |
| AccessStore.RbacStore.ChangeUserRoles | skills/fastapi-templates-xtn/assets/postgresql-rbac/app/services/access.py:438-594 | the in-place transaction inserts or removes exactly the changed bindings and bumps the versions, or refuses and rolls back |
| AccessStore.RbacStore.UpdateRole | skills/fastapi-templates-xtn/assets/postgresql-rbac/app/services/access.py:670-719 | the in-place transaction renames under the expected version, or refuses and rolls back |
| AccessStore.RbacStore.SetRoleActive | skills/fastapi-templates-xtn/assets/postgresql-rbac/app/services/access.py:721-762 | the in-place transaction flips the role and bumps its holders, or refuses and rolls back |
| AccessStore.RbacStore.SoftDeleteRole | skills/fastapi-templates-xtn/assets/postgresql-rbac/app/services/access.py:764-825 | the in-place transaction disables and deletes the role with its bindings and grants and bumps its holders, or refuses and rolls back |
| AccessStore.RbacStore.ChangeRolePermissions | skills/fastapi-templates-xtn/assets/postgresql-rbac/app/services/access.py:827-936 | the in-place transaction adds or removes exactly the changed grants and bumps the holders, or refuses and rolls back |
| AccessStore.RbacStore.BumpSharedAuthority | skills/fastapi-templates-xtn/assets/postgresql-rbac/app/services/access.py:1044-1052 | the loop raises the role version, each live holder's authority version and the epoch by one, and nothing else |
| Listing.UserListingAgrees | skills/fastapi-templates-xtn/assets/postgresql-rbac/app/repositories/access.py:200-233 | the grouped, outer-joined filter selects exactly the live users the policy shows to the actor |
| Listing.RoleListingAgrees | skills/fastapi-templates-xtn/assets/postgresql-rbac/app/repositories/access.py:236-247 | the role filter selects exactly the live roles the policy shows to the actor |
| Listing.ListingNeedsRoleShapes | skills/fastapi-templates-xtn/assets/postgresql-rbac/app/repositories/access.py:51-55 | without the role shape constraints the two super administrator tests differ, on a concrete table |
| Listing.PagesPartitionVisibleUsers | skills/fastapi-templates-xtn/assets/postgresql-rbac/app/repositories/access.py:288-312 | pages taken in order list every visible user once, in id order, as many as the reported total |
| Listing.PagesPartitionVisibleRoles | skills/fastapi-templates-xtn/assets/postgresql-rbac/app/repositories/access.py:250-271 | pages taken in order list every visible role once, by key and then id, as many as the reported total |
| Listing.KeyOrderExists | skills/fastapi-templates-xtn/assets/postgresql-rbac/app/repositories/access.py:264-264 | every set of roles can be enumerated by key and then id |
| Listing.KeyOrderUnique | skills/fastapi-templates-xtn/assets/postgresql-rbac/app/repositories/access.py:264-264 | and in no more than one way |
| Listing.PagesDisjoint | skills/fastapi-templates-xtn/assets/postgresql-rbac/app/repositories/access.py:250-312 | two different pages of a list without repeats share no entry |
| SessionRegistry.Registry.ActivateJti | skills/fastapi-templates-xtn/assets/postgresql-rbac/app/core/security/tokens.py:38-84 | the activation script on the hash and two sorted sets does what `Activate` says and keeps the three keys in agreement; on the keys themselves it answers superseded exactly under a greater stored version, conflict exactly on a live entry of that id, and otherwise leaves the entry last in all three keys under the new version |
| SessionRegistry.Registry.CompareAndDelete | skills/fastapi-templates-xtn/assets/postgresql-rbac/app/core/security/tokens.py:85-103 | the compare-and-delete script refines `Revoke` and keeps the three keys in agreement |
| SessionRegistry.Registry.ReadActiveJti | skills/fastapi-templates-xtn/assets/postgresql-rbac/app/core/security/tokens.py:104-123 | the read script answers exactly the live sessions' records |
| SessionRegistry.Registry.ListUserSessions | skills/fastapi-templates-xtn/assets/postgresql-rbac/app/core/security/tokens.py:124-149 | the listing script returns the issue times of the live sessions in login order and never its error answer on agreeing keys |
| SessionRegistry.Registry.PruneExpired | skills/fastapi-templates-xtn/assets/postgresql-rbac/app/core/security/tokens.py:33-36 | pruning removes exactly the expired sessions from all three keys |
| SessionRegistry.Registry.NextScore | skills/fastapi-templates-xtn/assets/postgresql-rbac/app/core/security/tokens.py:70-74 | the new order score is above every stored one |
| SessionRegistry.Registry.EvictOldest | skills/fastapi-templates-xtn/assets/postgresql-rbac/app/core/security/tokens.py:77-80 | the eviction loop leaves exactly the newest sessions up to the maximum |
| SessionRegistry.Registry.IssueAccessToken | skills/fastapi-templates-xtn/assets/postgresql-rbac/app/core/security/tokens.py:313-372 | the issuing loop refines `Issue`: at most two attempts, each signed at its own time with its own record and id |
| SessionRegistry.ByScore | skills/fastapi-templates-xtn/assets/postgresql-rbac/app/core/security/tokens.py:129-129 | reading a sorted set by rising score gives the fields in login order |
| SessionRegistry.FilingAgrees | skills/fastapi-templates-xtn/assets/postgresql-rbac/app/core/security/tokens.py:65-76 | filing a session with a score above all others keeps the three keys in agreement |
| Sessions.ActivationAnswers | skills/fastapi-templates-xtn/assets/postgresql-rbac/app/core/security/tokens.py:38-67 | each of the four answers of an activation if and only if: unusable arguments, a strictly greater stored version, a live session of that id, none of these |
| Sessions.ActivationFiles | skills/fastapi-templates-xtn/assets/postgresql-rbac/app/core/security/tokens.py:60-84 | a created session is last, with its record, under its version and the later deadline; all others are live sessions of that version with their records; any other answer files nothing |
| Sessions.RevocationAnswers | skills/fastapi-templates-xtn/assets/postgresql-rbac/app/core/security/tokens.py:85-103 | a revocation removes the session if and only if it is live with exactly the given record, answers mismatch on another record and absent otherwise, and touches no other session |
| Sessions.ReadAnswers | skills/fastapi-templates-xtn/assets/postgresql-rbac/app/core/security/tokens.py:104-123 | a read answers the record if and only if the session is live, and touches no other session |
| Sessions.ListingAnswers | skills/fastapi-templates-xtn/assets/postgresql-rbac/app/core/security/tokens.py:124-149 | a listing under the stored version answers one issue time per live session in login order and leaves exactly those; under another version nothing |
| Sessions.IssueAnswers | skills/fastapi-templates-xtn/assets/postgresql-rbac/app/core/security/tokens.py:313-372 | the refusals of issuing mean a greater stored version, unusable arguments, or ids all taken; a first id that is not live goes through at once |
| Sessions.VersionHighWaterMark | skills/fastapi-templates-xtn/assets/postgresql-rbac/app/core/security/tokens.py:51-67 | after an activation, every lower-version activation is refused without change until that session's deadline has passed, whatever happens in between |
| Sessions.NeverMovesBack | skills/fastapi-templates-xtn/assets/postgresql-rbac/app/core/security/tokens.py:60-69 | while the keys live, neither their version nor their deadline decreases |
| Sessions.RunWellFormed | skills/fastapi-templates-xtn/assets/postgresql-rbac/app/core/security/tokens.py:38-149 | over every run the stored sessions are distinct, of the stored version, and covered by the key deadline |
| Sessions.LiveSessionsOutliveNothing | skills/fastapi-templates-xtn/assets/postgresql-rbac/app/core/security/tokens.py:60-81 | no key expires while it still holds an unexpired session |
| Sessions.RegisteredInLoginOrder | skills/fastapi-templates-xtn/assets/postgresql-rbac/app/core/security/tokens.py:70-80 | whatever is registered after a run stands in the order of the logins that registered it |
| Sessions.RegistryFollowsLogins | skills/fastapi-templates-xtn/assets/postgresql-rbac/app/core/security/tokens.py:70-80 | from any state the registry ends with part of what it held followed by the run's logins, in that order |
| Sessions.ActivationKeepsNewest | skills/fastapi-templates-xtn/assets/postgresql-rbac/app/core/security/tokens.py:77-80 | activation drops only the oldest live sessions and only at the maximum; survivors keep their records |
| Sessions.ActivateReadRevoke | skills/fastapi-templates-xtn/assets/postgresql-rbac/app/core/security/tokens.py:38-123 | an activated session reads back as filed, and revoking it removes exactly it |
| Sessions.IssueIsOneActivation | skills/fastapi-templates-xtn/assets/postgresql-rbac/app/core/security/tokens.py:313-372 | however much time passes between the attempts, issuing is one activation of the returned id at its own attempt's time, or registers nothing |
| Admission.RevocationOverRuns | skills/fastapi-templates-xtn/assets/postgresql-rbac/app/dependencies/authentication.py:98-192 | in every interleaving a request is admitted if and only if its row was live and active at the authority read and no commit since its login had raised the token version |
| Admission.RunSound | skills/fastapi-templates-xtn/assets/postgresql-rbac/app/dependencies/authentication.py:98-192 | every step keeps logins, raises, tokens, registries, principals and verdicts consistent |
| Admission.VerdictExact | skills/fastapi-templates-xtn/assets/postgresql-rbac/app/dependencies/authentication.py:173-182 | equal versions at the read mean exactly that no raise lies between the login and the read |
| Admission.TransactionsGrow | skills/fastapi-templates-xtn/assets/postgresql-rbac/app/services/access.py:362-366 | no transaction lowers any user's token version |
| Admission.StaleContextRefused | skills/fastapi-templates-xtn/assets/postgresql-rbac/app/services/access.py:224-236 | a write sent under a version raised meanwhile is refused and changes nothing |
| AdmissionRuns.EndedLoginsStayOut | skills/fastapi-templates-xtn/assets/postgresql-rbac/app/dependencies/authentication.py:98-192 | after a committed revocation, reset, change of the active flag or own password change, no verdict still to be given admits a login of that user from before it, in any run |
| AdmissionRuns.CurrentLoginIsIssued | skills/fastapi-templates-xtn/assets/postgresql-rbac/app/core/security/tokens.py:313-372 | in every reachable state a login whose version is still the row's own gets a fresh token filed and registered |
| AdmissionRuns.NextLoginIsIssued | skills/fastapi-templates-xtn/assets/postgresql-rbac/app/core/security/tokens.py:51-67 | whatever was raised before, the next login of a live active user gets a registered token under the present version |
| AdmissionRuns.RegisteredTokenIsJudged | skills/fastapi-templates-xtn/assets/postgresql-rbac/app/dependencies/authentication.py:98-192 | a request with a registered token reaches its verdict whatever happens in between, and is admitted if and only if the row is then live, active and at the token's version |
| AdmissionRuns.LoggedOutStaysOut | skills/fastapi-templates-xtn/assets/postgresql-rbac/app/core/security/tokens.py:85-123 | after a logout no later request gets past the registry with that token, in any run |
| Captcha.CaptchaStore.Issue | skills/fastapi-templates-xtn/assets/postgresql-rbac/app/core/security/captcha.py:30-57 | the issue script in place does what `IssueScript` says |
| Captcha.CaptchaStore.Consume | skills/fastapi-templates-xtn/assets/postgresql-rbac/app/core/security/captcha.py:59-74 | the consume script in place does what `ConsumeScript` says |
| Captcha.OnePrivateChallenge | skills/fastapi-templates-xtn/assets/postgresql-rbac/app/core/security/captcha.py:30-57 | in every reachable state a private scene and owner have at most one live challenge, its index key names exactly it, and both share one deadline |
| Captcha.AcceptedOnce | skills/fastapi-templates-xtn/assets/postgresql-rbac/app/core/security/captcha.py:59-74 | in every run accepted challenges are distinct and each matches the scene, owner and answer it was issued for, within 300 seconds |
| Captcha.SubmissionSpends | skills/fastapi-templates-xtn/assets/postgresql-rbac/app/core/security/captcha.py:207-274 | a submission that reaches the consume script ends its challenge for the rest of the run, whatever its answer |
| Captcha.RetryMeansMoved | skills/fastapi-templates-xtn/assets/postgresql-rbac/app/core/security/captcha.py:162-199 | the script asks for a retry exactly when the index key moved since the client's read, and a retry or refusal changes nothing |
| Captcha.StoredRecordsAllowed | skills/fastapi-templates-xtn/assets/postgresql-rbac/app/core/security/captcha.py:224-253 | the client's shape checks never fail on a stored record |
| CaptchaRuns.AcceptedExactly | skills/fastapi-templates-xtn/assets/postgresql-rbac/app/core/security/captcha.py:59-74 | in every reachable state a submission is accepted if and only if its challenge is still stored and was issued for just that scene, owner and answer; either way exactly that challenge and its index key are gone |
| CaptchaRuns.RightAnswerAccepted | skills/fastapi-templates-xtn/assets/postgresql-rbac/app/core/security/captcha.py:207-274 | a client that submits what a stored challenge was issued for is accepted if its read and its script run within the time to live and nobody takes the challenge in between |
| CaptchaRuns.IssuedExactly | skills/fastapi-templates-xtn/assets/postgresql-rbac/app/core/security/captcha.py:30-57 | a refresh succeeds if and only if the challenge it names is still stored for its scene and owner, a public first issuance always, a private one if and only if the index key has not moved; exactly the replaced challenge is gone |
| CaptchaRuns.IssuedForItsAnswer | skills/fastapi-templates-xtn/assets/postgresql-rbac/app/core/security/captcha.py:134-205 | a client gets three attempts, and an undisturbed issuance stores a challenge for which a submission is right if and only if it names the scene, owner and answer given |
| Login.GrantsAreCurrent | skills/fastapi-templates-xtn/assets/postgresql-rbac/app/services/authentication.py:680-767 | in every interleaving a granted login saw at its last lock a live active row whose hash encodes the submitted password, and got that row's token version |
| Login.RehashKeepsCredential | skills/fastapi-templates-xtn/assets/postgresql-rbac/app/services/authentication.py:710-734 | no login step changes anything but the salt and parameters of the hash, and those only to the current ones |
| Login.ChangeCommitsExactly | skills/fastapi-templates-xtn/assets/postgresql-rbac/app/services/authentication.py:313-370 | with correct credentials, a different new password that passes the policy and no commit by anyone else, a password change or completed reset that finishes commits if and only if no login rehashed between its read and its lock, and is refused otherwise |
| Login.CurrentHashAlwaysCommits | skills/fastapi-templates-xtn/assets/postgresql-rbac/app/services/authentication.py:501-525 | in particular one whose stored hash already has the current parameters always commits |
| Login.ChangeLosesRace | skills/fastapi-templates-xtn/assets/postgresql-rbac/app/services/authentication.py:336-357 | a concrete run in which a correct change is refused because a correct login rehashed meanwhile |
| Login.CorrectCredentialsSucceed | skills/fastapi-templates-xtn/assets/postgresql-rbac/app/services/authentication.py:680-767 | if no password, status or session commit intervenes, a login with correct credentials that finishes is granted, however many logins rehash |
| Login.ClientsFinish | skills/fastapi-templates-xtn/assets/postgresql-rbac/app/services/authentication.py:680-767 | each own step brings a client nearer to its end, so a login finishes within six of them |
| Login.ClientGrantSound | skills/fastapi-templates-xtn/assets/postgresql-rbac/app/services/authentication.py:842-865 | a grant follows only from locks at which the row still proves the password |
| LoginDelivery.ChangeDelivered | skills/fastapi-templates-xtn/assets/postgresql-rbac/app/services/authentication.py:336-370 | in every run, a change or completed reset that is told it succeeded stored, at its own lock, a current hash of exactly the requested password, not temporary, dated by the lock, under the next version, on a live active row that held the known password |
| LoginDelivery.AdminResetDelivered | skills/fastapi-templates-xtn/assets/postgresql-rbac/app/services/authentication.py:868-881 | an administrative reset stores a current hash of the given password, temporary or not as asked, dated and under the next version, on a live row only |
| LoginDelivery.FlagDelivered | skills/fastapi-templates-xtn/assets/postgresql-rbac/app/services/access.py:355-370 | on the account row a change of the active flag steps the version and keeps every password column |
| LoginDelivery.SessionsEndDelivered | skills/fastapi-templates-xtn/assets/postgresql-rbac/app/services/access.py:422-424 | on the account row ending the sessions steps the version and nothing else |
| LoginDelivery.NewPasswordLogsIn | skills/fastapi-templates-xtn/assets/postgresql-rbac/app/services/authentication.py:501-538 | after that an undisturbed login with the new password is granted under the new version without having to change it |
| LoginDelivery.PolicyDecides | skills/fastapi-templates-xtn/assets/postgresql-rbac/app/services/authentication.py:328-334 | a password the policy turns down never reaches the lock |
| LoginDelivery.VerifyAnswers | skills/fastapi-templates-xtn/assets/postgresql-rbac/app/core/security/passwords.py:182-222 | verification is refused, unavailable, verified or in need of a rehash if and only if length, parameters and hash say so |
| LoginDelivery.GrantLeavesCurrentHash | skills/fastapi-templates-xtn/assets/postgresql-rbac/app/services/authentication.py:710-734 | a granted login leaves the row with a hash of the current parameters and otherwise as it was |
| Login.AccountRow.LockForLogin | skills/fastapi-templates-xtn/assets/postgresql-rbac/app/services/authentication.py:710-734 | the first lock section in place does what `LoginLockSection` says |
| Login.AccountRow.LockForChange | skills/fastapi-templates-xtn/assets/postgresql-rbac/app/services/authentication.py:336-357 | the password change lock section in place does what `ChangeLockSection` says |
| Login.AccountRow.LockForReset | skills/fastapi-templates-xtn/assets/postgresql-rbac/app/services/authentication.py:501-525 | the completed reset lock section in place does what `ResetLockSection` says |
| RepeatedPattern.RepeatedPatternExact | skills/fastapi-templates-xtn/assets/postgresql-rbac/app/core/config.py:38-41 | the doubled-text search detects exactly the texts made of a nonempty block repeated at least twice |
| RepeatedPattern.CommutingTextsSharePower | skills/fastapi-templates-xtn/assets/postgresql-rbac/app/core/config.py:38-41 | two nonempty texts that commute are powers of one block |
| BoundedWork.SlotsConserved | skills/fastapi-templates-xtn/assets/postgresql-rbac/app/core/security/passwords.py:143-162 | under every schedule and any cancellations at any await, free and held slots make up the bound, running threads never exceed it, and each slot is released once and only after its worker task is done |
| BoundedWork.StepCallers | skills/fastapi-templates-xtn/assets/postgresql-rbac/app/core/security/passwords.py:146-162 | every step keeps what ties a caller's place in its code, its shield and its cancellations to its worker, so no caller leaves before the worker task is done |
| BoundedWork.CancellationAlwaysSurfaces | skills/fastapi-templates-xtn/assets/postgresql-rbac/app/core/security/passwords.py:148-162 | a caller that left was cancelled out if and only if a cancellation hit it while it held its slot, and otherwise has its worker's result or error |
| BoundedWork.RunBounded | skills/fastapi-templates-xtn/assets/postgresql-rbac/app/core/security/passwords.py:143-162 | the block with its shielded await takes exactly the machine's steps of its caller, under any events in between, and leaves only with the worker task done |
| BoundedWork.HoldOn | skills/fastapi-templates-xtn/assets/postgresql-rbac/app/core/security/passwords.py:154-162 | so does the loop on the worker being done, through any number of further cancellations |
| BoundedWork.HolderLeaves | skills/fastapi-templates-xtn/assets/postgresql-rbac/app/core/security/passwords.py:143-162 | a holder whose worker task is done leaves with its result or its cancellation, and releases its slot, as soon as its shield and its own code have run, whatever the others do |
| BoundedWork.SlotIsTaken | skills/fastapi-templates-xtn/assets/postgresql-rbac/app/core/security/passwords.py:143-145 | a waiting caller gets a slot if and only if one is free, and its work is under way from there |
| LogBuffer.LogConserved | skills/fastapi-templates-xtn/assets/postgresql-rbac/app/core/observability.py:487-599 | at every step of any interleaving the emitted records, plus one for a failed thread start, are all counted exactly once |
| LogBuffer.OutputInOrder | skills/fastapi-templates-xtn/assets/postgresql-rbac/app/core/observability.py:508-547 | lines are written once each in emission order, and the queue never exceeds its capacity |
| LogBuffer.AfterShutdown | skills/fastapi-templates-xtn/assets/postgresql-rbac/app/core/observability.py:574-599 | after a drained shutdown the queue stays empty and at most the line in flight is still written |
| LogBuffer.BufferedLogHandler.Emit | skills/fastapi-templates-xtn/assets/postgresql-rbac/app/core/observability.py:508-523 | a line that is short enough is appended to a queue with room; otherwise exactly the one counter of its reason rises and the queue is as it was |
| LogBuffer.BufferedLogHandler.Drain | skills/fastapi-templates-xtn/assets/postgresql-rbac/app/core/observability.py:589-599 | the drop loop ends with an empty queue whatever lines the writer takes meanwhile, and each line goes to the writer or is counted as dropped |
| LogBuffer.BufferedLogHandler.WriteLoop | skills/fastapi-templates-xtn/assets/postgresql-rbac/app/core/observability.py:525-547 | the closed handler's write loop empties the queue, one write attempt per line |
| LogBuffer.PassesDeliver | skills/fastapi-templates-xtn/assets/postgresql-rbac/app/core/observability.py:525-547 | an undisturbed writer with a working sink writes every queued line in order and drops none |
| LogBuffer.HealthyOutput | skills/fastapi-templates-xtn/assets/postgresql-rbac/app/core/observability.py:508-547 | with a working sink, room in the queue and no shutdown, the output is at every moment the earliest formattable, short enough lines in order without a gap, and all of them once nothing is queued or in flight |
| DependencyClosure.CheckEnvironment | scripts/validate_ci_environment.py:102-153 | the check passes if and only if the least closed selection has every requirement met and has uvloop whenever it has uvicorn; a failure names the missing uvloop, or what is wrong with a requirement that every closed selection contains |
| DependencyClosure.ResolveSelection | scripts/validate_ci_environment.py:105-148 | the worklist ends; on success it returns the least selection closed under the applying dependencies, everything at its pin, and on failure every closed selection has a problem |
| DependencyClosure.UniverseClosed | scripts/validate_ci_environment.py:105-148 | a closed selection always exists, so statements about every one of them are never empty |
| DependencyClosure.ChooseKeepsProgress | scripts/validate_ci_environment.py:138-148 | queueing a distribution's dependencies under its extras so far keeps every applying requirement met or queued |
| DependencyClosure.AppliesMore | scripts/validate_ci_environment.py:44-52 | a requirement that applies under some extras applies under more |
| Quota.IntervalLimit | skills/fastapi-templates-xtn/assets/postgresql-rbac/app/core/security/rate_limit.py:18-38 | in every run any closed interval of one window's length admits at most twice the limit less one |
| Quota.IntervalLimitReached | skills/fastapi-templates-xtn/assets/postgresql-rbac/app/core/security/rate_limit.py:18-38 | under every policy some run admits that many in one such interval, so the bound is exact |
| Quota.WindowLimit | skills/fastapi-templates-xtn/assets/postgresql-rbac/app/core/security/rate_limit.py:18-38 | each window admits at most the limit |
| Quota.CheckExactly | skills/fastapi-templates-xtn/assets/postgresql-rbac/app/core/security/rate_limit.py:18-38 | after every run a check is admitted if and only if its window has admitted less than the limit and is not in its last instant, with the exact rest of the limit and of the window |
| Quota.InspectionPredictsIncrement | skills/fastapi-templates-xtn/assets/postgresql-rbac/app/core/security/rate_limit.py:41-55 | an inspection denies, allows or fails as an increment at that instant would if and only if the key is not a stored zero with a deadline, and a denial names the same wait |
| Quota.RetryAllowedAfter | skills/fastapi-templates-xtn/assets/postgresql-rbac/app/core/security/rate_limit.py:154-172 | after a denial, an increment any given wait later is allowed if and only if the wait is longer than the time given, and at exactly that time it is unavailable |
| Quota.RetryAfterHeader | skills/fastapi-templates-xtn/assets/postgresql-rbac/app/core/middleware/rate_limit.py:20-34 | a client that waits exactly as long as the `Retry-After` header says is allowed if and only if the time left was not a whole number of seconds |
| Quota.MessageInjective | skills/fastapi-templates-xtn/assets/postgresql-rbac/app/core/security/rate_limit.py:122-145 | the NUL-joined key message determines namespace, policy, subject type and subject |
| Quota.Window.RunIncrement | skills/fastapi-templates-xtn/assets/postgresql-rbac/app/core/security/rate_limit.py:18-38 | the increment script in place does what `Increment` says |
| Install.Installation.Update | scripts/update_installed_skill.py:190-313 | for every choice of failing steps the complete old tree is at target or backup at every step and target never holds a partial tree; it answers unchanged if and only if the valid source has the target's version and manifest, and planned if and only if it is a dry run of any other valid source; a failed update leaves something else at the target if and only if it came to the replacement and one of three faults struck there; with no failing step it fails exactly on sources that are not installable |
| Install.Installation.Replace | scripts/update_installed_skill.py:285-305 | replacement succeeds exactly when no step raises, and a failed one leaves the old tree away from the target if and only if the rename to the backup raised after taking effect, the new tree was in place when its rename raised, or neither tree could be put there |
| Install.InterruptedAfterBackup | scripts/update_installed_skill.py:285-313 | a concrete interruption after which the target is absent and the old tree complete at the backup |
| Install.StagedManifest | scripts/update_installed_skill.py:140-176 | the staged manifest is part of the source manifest, and equal to it if and only if no manifest path is named like an ignored directory or `.env` or lies under a directory named like an ignored file |
| Install.CopyKeeps | scripts/update_installed_skill.py:163-176 | the recursive copy keeps exactly the files none of whose path components it skips |
| Install.StagedIsValid | scripts/update_installed_skill.py:274-283 | a valid source stages to a valid tree of the same version |
| Install.ValidSourceNeverInstalled | scripts/update_installed_skill.py:274-283 | a concrete valid source that can never be installed |
| Install.BuildManifest | scripts/update_installed_skill.py:154-160 | the manifest loop collects exactly the files that are not ignored |
| Install.EnvFileExact | scripts/update_installed_skill.py:76-112 | validation finds an environment file if and only if one of that name is among all the files below |

## Left out

- HTTP routes, request schemas, response envelopes, middleware and the Redis and SQLAlchemy client set-up: single-branch plumbing.
- Argon2, HMAC, SHA-256 and JWT arithmetic: hashes, digests and signatures are injective values. The JWT's own expiry check with its leeway is not modelled; the registry's stricter one is.
- Audit rows, denial events and log formatting: they record decisions and change none. The `after_state` audit payload of a status change, which carries the old token version, is not part of this model.
- Tombstoned binding, role-permission and catalogue rows: only live rows are kept, so a removal deletes a pair; who deleted it and when is not modelled.
- JSON text and number formatting in Redis values: records are datatypes, so the scripts' branches for undecodable or non-integer values do not arise, and the parsing checks of an active record reduce to comparing its fields.
- Identity abuse limits, captcha use by routes, and registration request checks around provisioning: only the provisioning transaction is modelled.
- Password policy for new passwords, Unicode forms and upper-casing of captcha answers: the policy's verdict is an input, and answers are compared as already upper-cased.
- Role keys are the three reserved ones or any other text, and texts compare by code point: the database's collation, which may order keys differently, is not part of this model.
- Offline bootstrap and handover of the super administrator: exactly one holder is the initial condition.
- Deadlocks, isolation levels, disk loss and non-atomic renames: each lock, script and rename is one step.
- Admission.RevocationOverRuns: a failed Redis call is a step that does not happen, so the outcome "unavailable" is not distinguished from a request that was never sent.
- Login.GrantsAreCurrent: one account row is modelled, since no step of the protocol reads another user's row; the lookup by user name finds that row or nothing.
- Captcha.AcceptedOnce: a client that failed and retries under a new request is a new client.
- BoundedWork.SlotsConserved: taking a slot is one step, and direct cancellation of the inner worker task, which the code never requests, is outside the model.
- LogBuffer.BufferedLogHandler.WriteLoop: proved for a closed handler without a drain; emits and drains between its steps are covered by the interleaved steps.
- DependencyClosure.CheckEnvironment: name canonicalisation, reading of the pin file and the interpreter checks before the loop; markers and specifiers are answered by functions given as input, and a marker may depend only on the environment and one extra.
- Install.Installation.Update: path and link validation, the file-system identity check and the text of SKILL.md and VERSION; what these files parse to is part of their content.
