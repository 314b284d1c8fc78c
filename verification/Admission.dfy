/**
 Logins, tokens and request admission around the two stores: the session
 registry of each user and the database row that carries the current token
 version.  Any number of logins, requests and transactions interleave; a
 request reads the registry first and the database later.
 */
module Admission {
  import opened Wrappers
  import opened Domain
  import opened Policy
  import opened AccessTables
  import opened AccessSteps
  import opened Sessions

  type LoginId = nat
  type RequestId = nat

  // Each record keeps the step at which it was made; steps are numbered from zero.
  datatype Login = Login(user: UserId, version: nat, at: nat)
  datatype Token = Token(login: LoginId, record: Record)
  datatype Principal = Principal(field: Field, version: int)
  datatype Verdict = Verdict(field: Field, active: bool, admitted: bool, at: nat)
  datatype Raise = Raise(user: UserId, version: nat, at: nat)

  datatype World = World(
    step: nat,
    now: nat,
    tables: Tables,
    registries: map<UserId, View>,
    logins: map<LoginId, Login>,
    tokens: map<Field, Token>,
    principals: map<RequestId, Principal>,
    verdicts: map<RequestId, Verdict>,
    raises: set<Raise>
  ) {
    function RegistryOf(u: UserId): View {
      if u in registries then registries[u] else EMPTY
    }
  }

  datatype Event =
    | Authenticate(login: LoginId, user: UserId)
    | Issue(login: LoginId, field: Field, iat: nat, exp: int, maximum: int)
    | ReadRegistry(request: RequestId, field: Field)
    | ReadAuthority(request: RequestId)
    | RevokeToken(request: RequestId)
    | ListSessions(user: UserId, version: nat)
    | Transact(change: Request)
    | ReplaceOwnPassword(user: UserId, version: nat)
    | TimePasses(us: nat)

  // ----- steps -----

  /** The last lock of a login: the user row is live and active, and its version is returned. */
  function AfterAuthenticate(s: World, login: LoginId, user: UserId): World {
    if login in s.logins || !s.tables.Live(user) || !s.tables.users[user].active then s
    else s.(logins := s.logins[login := Login(user, s.tables.users[user].tokenVersion, s.step)])
  }

  /** One issuance attempt under a fresh token id; several may follow one login. */
  function AfterIssue(s: World, login: LoginId, field: Field, iat: nat, exp: int, maximum: int): World {
    if login !in s.logins || field in s.tokens then s
    else
      var user := s.logins[login].user;
      var record := Record(user, s.logins[login].version, iat, exp);
      var (view, code) := Activate(s.RegistryOf(user), s.now, field, record, maximum);
      s.(registries := s.registries[user := view],
         tokens := if code == Created then s.tokens[field := Token(login, record)] else s.tokens)
  }

  /** A bearer token names the user and times it was signed with; the registry supplies the version. */
  function AfterReadRegistry(s: World, request: RequestId, field: Field): World {
    if request in s.principals || field !in s.tokens then s
    else
      var claims := s.tokens[field].record;
      var (view, found) := Read(s.RegistryOf(claims.user), s.now, field);
      s.(registries := s.registries[claims.user := view],
         principals := if found.Some? && found.value.user == claims.user && found.value.iat == claims.iat
                          && found.value.exp == claims.exp
                       then s.principals[request := Principal(field, found.value.tokenVersion)]
                       else s.principals)
  }

  /** The database read that decides: the row must be live, active and at the version the registry gave. */
  function AfterReadAuthority(s: World, request: RequestId): World {
    if request !in s.principals || request in s.verdicts || s.principals[request].field !in s.tokens then s
    else
      var principal := s.principals[request];
      var user := s.tokens[principal.field].record.user;
      var active := s.tables.Live(user) && s.tables.users[user].active;
      var admitted := active && s.tables.users[user].tokenVersion == principal.version;
      s.(verdicts := s.verdicts[request := Verdict(principal.field, active, admitted, s.step)])
  }

  /** Logout, or the clean-up after a refusal, which may fail and then leaves everything as it was. */
  function AfterRevokeToken(s: World, request: RequestId): World {
    if request !in s.principals || s.principals[request].field !in s.tokens then s
    else
      var principal := s.principals[request];
      var record := s.tokens[principal.field].record.(tokenVersion := principal.version);
      s.(registries := s.registries[record.user := Revoke(s.RegistryOf(record.user), s.now, principal.field, record).0])
  }

  function AfterListSessions(s: World, user: UserId, version: nat): World {
    s.(registries := s.registries[user := List(s.RegistryOf(user), s.now, version).0])
  }

  function Raised(before: Tables, after: Tables, step: nat): set<Raise> {
    set u | u in before.users && u in after.users && after.users[u].tokenVersion > before.users[u].tokenVersion ::
      Raise(u, after.users[u].tokenVersion, step)
  }

  function Committed(s: World, tables: Tables): World {
    s.(tables := tables, raises := s.raises + Raised(s.tables, tables, s.step))
  }

  /** The commit of a password change or a completed reset: same version, then one more. */
  function OwnPasswordReplaced(t: Tables, user: UserId, version: nat): Tables {
    if t.Live(user) && t.users[user].active && t.users[user].tokenVersion == version then WithSessionsRevoked(t, user) else t
  }

  function AfterTime(s: World, us: nat): World {
    s.(now := s.now + us, registries := map u | u in s.registries :: AtTime(s.registries[u], s.now + us))
  }

  function After(s: World, e: Event): World {
    match e
    case Authenticate(login, user) => AfterAuthenticate(s, login, user)
    case Issue(login, field, iat, exp, maximum) => AfterIssue(s, login, field, iat, exp, maximum)
    case ReadRegistry(request, field) => AfterReadRegistry(s, request, field)
    case ReadAuthority(request) => AfterReadAuthority(s, request)
    case RevokeToken(request) => AfterRevokeToken(s, request)
    case ListSessions(user, version) => AfterListSessions(s, user, version)
    case Transact(change) => Committed(s, AccessTables.Next(s.tables, change))
    case ReplaceOwnPassword(user, version) => Committed(s, OwnPasswordReplaced(s.tables, user, version))
    case TimePasses(us) => AfterTime(s, us)
  }

  function WorldStep(s: World, e: Event): World {
    After(s, e).(step := s.step + 1)
  }

  function WorldRun(s: World, events: seq<Event>): World
    decreases |events|
  {
    if events == [] then s else WorldRun(WorldStep(s, events[0]), events[1..])
  }

  // ----- token versions only grow -----

  ghost predicate TokenVersionsGrow(t: Tables, t': Tables) {
    forall u :: u in t.users ==> u in t'.users && t'.users[u].tokenVersion >= t.users[u].tokenVersion
  }

  lemma UserTransactionsGrow(t: Tables, change: Request)
    requires change.UpdateUserStatusRequest? || change.RevokeUserSessionsRequest? || change.ResetUserPasswordRequest?
          || change.ChangeUserRolesRequest? || change.CreateUserRequest? || change.RegisterRequest?
    ensures TokenVersionsGrow(t, AccessTables.Next(t, change))
  {
    hide BasicActorCheck, UserVisible, RoleVisible, DecideRoleChange, DecideUserAdministration, Build;
    hide Tables.GrantsOf, Tables.Snapshot, Predicted, ChangedIds, Pairs;
  }

  lemma RoleTransactionsGrow(t: Tables, change: Request)
    requires change.CreateRoleRequest? || change.UpdateRoleRequest? || change.SetRoleActiveRequest? || change.SoftDeleteRoleRequest?
          || change.ChangeRolePermissionsRequest? || change.SetRegistrationRequest?
    ensures TokenVersionsGrow(t, AccessTables.Next(t, change))
  {
    hide BasicActorCheck, UserVisible, RoleVisible, DecideRoleCreate, Build, LockedActor, CurrentActor, LockSharedRole;
    hide Tables.GrantsOf, Tables.Snapshot, Administer, AdministerPermissions, Affected, PermissionsAfter, GrantRows, Renamed;
  }

  lemma TransactionsGrow(t: Tables, change: Request)
    ensures TokenVersionsGrow(t, AccessTables.Next(t, change))
  {
    hide AccessTables.Next, TokenVersionsGrow;
    if change.UpdateUserStatusRequest? || change.RevokeUserSessionsRequest? || change.ResetUserPasswordRequest?
       || change.ChangeUserRolesRequest? || change.CreateUserRequest? || change.RegisterRequest? {
      UserTransactionsGrow(t, change);
    } else {
      RoleTransactionsGrow(t, change);
    }
  }

  /** A write sent under a version that has since been raised is refused and changes nothing. */
  lemma StaleContextRefused(t: Tables, change: Request)
    requires Author(change).Some?
    requires var ctx := Author(change).value; !t.Live(ctx.userId) || t.users[ctx.userId].tokenVersion != ctx.tokenVersion
    ensures Apply(t, change).Err? && AccessTables.Next(t, change) == t
  {
    hide BasicActorCheck, UserVisible, RoleVisible, DecideRoleChange, DecideRoleCreate, DecideUserAdministration, Build;
    hide Tables.GrantsOf, Administer, AdministerPermissions, Predicted, Affected;
  }

  // ----- the invariant -----

  ghost predicate LoginsSound(s: World) {
    forall l :: l in s.logins ==>
      var login := s.logins[l];
      && login.at < s.step && login.user in s.tables.users
      && login.version <= s.tables.users[login.user].tokenVersion
      && (login.version == s.tables.users[login.user].tokenVersion || exists r :: r in s.raises && Follows(login, r))
  }

  /** The raise came after the login of the same user. */
  predicate Follows(login: Login, r: Raise) {
    r.user == login.user && login.at < r.at
  }

  ghost predicate RaisesSound(s: World) {
    && (forall r :: r in s.raises ==>
          r.at < s.step && r.user in s.tables.users && r.version <= s.tables.users[r.user].tokenVersion)
    && (forall l, r :: l in s.logins && r in s.raises && r.user == s.logins[l].user ==> Ordered(s.logins[l], r))
  }

  predicate Ordered(login: Login, r: Raise) {
    login.at != r.at && (login.at < r.at ==> login.version < r.version)
  }

  ghost predicate TokensSound(s: World) {
    forall f :: f in s.tokens ==>
      var token := s.tokens[f];
      token.login in s.logins && token.record.user == s.logins[token.login].user
      && token.record.tokenVersion == s.logins[token.login].version
  }

  ghost predicate FiledFromTokens(tokens: map<Field, Token>, u: UserId, view: View) {
    forall f :: f in view.records ==> f in tokens && tokens[f].record == view.records[f] && view.records[f].user == u
  }

  ghost predicate RegistriesSound(s: World) {
    forall u :: u in s.registries ==> FiledFromTokens(s.tokens, u, s.registries[u])
  }

  ghost predicate PrincipalsSound(s: World) {
    forall q :: q in s.principals ==>
      s.principals[q].field in s.tokens && s.principals[q].version == s.tokens[s.principals[q].field].record.tokenVersion
  }

  /** Some commit raised the user's version after the login and before the authority read. */
  ghost predicate RevokedBetween(s: World, login: Login, read: nat) {
    exists r :: r in s.raises && Follows(login, r) && r.at < read
  }

  /** A request is admitted exactly when its row was live and active and its login had not been revoked. */
  ghost predicate VerdictsSound(s: World) {
    forall q :: q in s.verdicts ==>
      var verdict := s.verdicts[q];
      && verdict.at < s.step && verdict.field in s.tokens && s.tokens[verdict.field].login in s.logins
      && (verdict.admitted <==>
          verdict.active && !RevokedBetween(s, s.logins[s.tokens[verdict.field].login], verdict.at))
  }

  ghost predicate Sound(s: World) {
    LoginsSound(s) && RaisesSound(s) && TokensSound(s) && RegistriesSound(s) && PrincipalsSound(s) && VerdictsSound(s)
  }

  // ----- every step keeps it -----

  lemma AuthenticateKeeps(s: World, login: LoginId, user: UserId)
    requires Sound(s)
    ensures Sound(WorldStep(s, Authenticate(login, user)))
  {
    var s' := WorldStep(s, Authenticate(login, user));
    hide RegistriesSound, PrincipalsSound, VerdictsSound, TokensSound, LoginsSound, RaisesSound;
    RegistriesFrame(s, s');
    LoginVerdicts(s, s');
    LoginTokens(s, s');
    AuthenticateLogins(s, login, user);
  }

  lemma LoginTokens(s: World, s': World)
    requires TokensSound(s) && s'.tokens == s.tokens
    requires forall l :: l in s.logins ==> l in s'.logins && s'.logins[l] == s.logins[l]
    ensures TokensSound(s')
  {
  }

  lemma AuthenticateLogins(s: World, login: LoginId, user: UserId)
    requires LoginsSound(s) && RaisesSound(s)
    ensures var s' := WorldStep(s, Authenticate(login, user)); LoginsSound(s') && RaisesSound(s')
  {
    if login !in s.logins && s.tables.Live(user) && s.tables.users[user].active {
      LoginAdded(s, login, Login(user, s.tables.users[user].tokenVersion, s.step));
    }
  }

  lemma LoginAdded(s: World, l: LoginId, login: Login)
    requires LoginsSound(s) && RaisesSound(s) && login.user in s.tables.users
    requires login == Login(login.user, s.tables.users[login.user].tokenVersion, s.step)
    ensures var s' := s.(logins := s.logins[l := login], step := s.step + 1); LoginsSound(s') && RaisesSound(s')
  {
  }

  /** New logins and a later step leave the verdicts sound. */
  lemma LoginVerdicts(s: World, s': World)
    requires VerdictsSound(s) && s'.verdicts == s.verdicts && s'.tokens == s.tokens && s'.raises == s.raises
    requires s'.step >= s.step && forall l :: l in s.logins ==> l in s'.logins && s'.logins[l] == s.logins[l]
    ensures VerdictsSound(s')
  {
    forall q | q in s'.verdicts
      ensures var verdict := s'.verdicts[q]; var login := s'.logins[s'.tokens[verdict.field].login];
              RevokedBetween(s', login, verdict.at) == RevokedBetween(s, login, verdict.at)
    {
    }
  }

  lemma RegistriesFrame(s: World, s': World)
    requires s'.registries == s.registries && s'.tokens == s.tokens && s'.principals == s.principals
    ensures RegistriesSound(s) ==> RegistriesSound(s')
    ensures PrincipalsSound(s) ==> PrincipalsSound(s')
  {
  }

  lemma CommitKeeps(s: World, tables: Tables)
    requires Sound(s) && TokenVersionsGrow(s.tables, tables)
    ensures Sound(Committed(s, tables).(step := s.step + 1))
  {
    var s' := Committed(s, tables).(step := s.step + 1);
    hide RegistriesSound, PrincipalsSound, VerdictsSound, TokensSound;
    assert RegistriesSound(s') && PrincipalsSound(s') by {
      RegistriesFrame(s, s');
    }
    assert TokensSound(s') by {
      TokensFrame(s, s');
    }
    CommitRaises(s, tables);
    CommitLogins(s, tables);
    CommitVerdicts(s, s');
  }

  lemma TokensFrame(s: World, s': World)
    requires s'.tokens == s.tokens && s'.logins == s.logins
    ensures TokensSound(s) ==> TokensSound(s')
  {
  }

  lemma CommitRaises(s: World, tables: Tables)
    requires LoginsSound(s) && RaisesSound(s) && TokenVersionsGrow(s.tables, tables)
    ensures RaisesSound(Committed(s, tables).(step := s.step + 1))
  {
  }

  lemma CommitLogins(s: World, tables: Tables)
    requires LoginsSound(s) && RaisesSound(s) && TokenVersionsGrow(s.tables, tables)
    ensures LoginsSound(Committed(s, tables).(step := s.step + 1))
  {
    var s' := Committed(s, tables).(step := s.step + 1);
    forall l | l in s.logins && s.logins[l].version != tables.users[s.logins[l].user].tokenVersion
      ensures exists r :: r in s'.raises && Follows(s.logins[l], r)
    {
      var login := s.logins[l];
      if login.version == s.tables.users[login.user].tokenVersion {
        var raise := Raise(login.user, tables.users[login.user].tokenVersion, s.step);
        assert raise in Raised(s.tables, tables, s.step);
        assert raise in s'.raises && Follows(login, raise);
      } else {
        var r :| r in s.raises && Follows(login, r);
        assert r in s'.raises;
      }
    }
  }

  /** A raise at this step is later than every authority read so far. */
  lemma CommitVerdicts(s: World, s': World)
    requires VerdictsSound(s) && s'.verdicts == s.verdicts && s'.tokens == s.tokens && s'.logins == s.logins
    requires s'.step >= s.step && s.raises <= s'.raises && forall r :: r in s'.raises - s.raises ==> r.at >= s.step
    ensures VerdictsSound(s')
  {
    forall q | q in s'.verdicts
      ensures var verdict := s'.verdicts[q]; var login := s'.logins[s'.tokens[verdict.field].login];
              RevokedBetween(s', login, verdict.at) == RevokedBetween(s, login, verdict.at)
    {
    }
  }

  /** The registries, tokens and principals may change; the rest and the old tokens stay. */
  ghost predicate OnlyRegistries(s: World, s': World) {
    && s'.step == s.step + 1 && s'.tables == s.tables && s'.logins == s.logins && s'.raises == s.raises
    && s'.verdicts == s.verdicts
    && forall f :: f in s.tokens ==> f in s'.tokens && s'.tokens[f] == s.tokens[f]
  }

  lemma OnlyRegistriesKeeps(s: World, s': World)
    requires Sound(s) && OnlyRegistries(s, s') && TokensSound(s') && RegistriesSound(s') && PrincipalsSound(s')
    ensures Sound(s')
  {
    hide RegistriesSound, PrincipalsSound, TokensSound;
    assert VerdictsSound(s') by {
      hide LoginsSound, RaisesSound;
      TokenVerdicts(s, s');
    }
  }

  lemma TokenVerdicts(s: World, s': World)
    requires VerdictsSound(s) && OnlyRegistries(s, s')
    ensures VerdictsSound(s')
  {
    forall q | q in s'.verdicts
      ensures var verdict := s'.verdicts[q]; var login := s'.logins[s'.tokens[verdict.field].login];
              RevokedBetween(s', login, verdict.at) == RevokedBetween(s, login, verdict.at)
    {
    }
  }

  /** Filing the result of a script that kept only known records keeps every registry sound. */
  lemma RegistryReplaced(s: World, s': World, user: UserId, view: View)
    requires RegistriesSound(s) && s'.registries == s.registries[user := view]
    requires forall f :: f in s.tokens ==> f in s'.tokens && s'.tokens[f] == s.tokens[f]
    requires FiledFromTokens(s'.tokens, user, view)
    ensures RegistriesSound(s')
  {
  }

  lemma KnownRegistry(s: World, user: UserId, view: View)
    requires RegistriesSound(s) && KeepsRecords(s.RegistryOf(user), view)
    ensures FiledFromTokens(s.tokens, user, view)
  {
    assert FiledFromTokens(s.tokens, user, s.RegistryOf(user));
  }

  lemma IssueKeeps(s: World, login: LoginId, field: Field, iat: nat, exp: int, maximum: int)
    requires Sound(s)
    ensures Sound(WorldStep(s, Issue(login, field, iat, exp, maximum)))
  {
    var s' := WorldStep(s, Issue(login, field, iat, exp, maximum));
    hide LoginsSound, RaisesSound, VerdictsSound, RegistriesSound;
    if login in s.logins && field !in s.tokens {
      var user := s.logins[login].user;
      var record := Record(user, s.logins[login].version, iat, exp);
      var view := Activate(s.RegistryOf(user), s.now, field, record, maximum).0;
      IssueFiles(s, s', user, field, record, maximum);
      hide Activate;
      RegistryReplaced(s, s', user, view);
      assert TokensSound(s') && PrincipalsSound(s');
    } else {
      RegistriesFrame(s, s');
    }
    hide Activate, TokensSound, PrincipalsSound;
    OnlyRegistriesKeeps(s, s');
  }

  lemma IssueFiles(s: World, s': World, user: UserId, field: Field, record: Record, maximum: int)
    requires RegistriesSound(s) && record.user == user && field !in s.tokens
    requires forall f :: f in s.tokens ==> f in s'.tokens && s'.tokens[f] == s.tokens[f]
    requires var (view, code) := Activate(s.RegistryOf(user), s.now, field, record, maximum);
             code == Created ==> field in s'.tokens && s'.tokens[field].record == record
    ensures FiledFromTokens(s'.tokens, user, Activate(s.RegistryOf(user), s.now, field, record, maximum).0)
  {
    assert FiledFromTokens(s.tokens, user, s.RegistryOf(user));
  }

  lemma ReadRegistryKeeps(s: World, request: RequestId, field: Field)
    requires Sound(s)
    ensures Sound(WorldStep(s, ReadRegistry(request, field)))
  {
    var s' := WorldStep(s, ReadRegistry(request, field));
    hide LoginsSound, RaisesSound, VerdictsSound;
    if request !in s.principals && field in s.tokens {
      var user := s.tokens[field].record.user;
      var (view, found) := Read(s.RegistryOf(user), s.now, field);
      assert FiledFromTokens(s.tokens, user, s.RegistryOf(user));
      KnownRegistry(s, user, view);
      RegistryReplaced(s, s', user, view);
      assert PrincipalsSound(s');
    } else {
      RegistriesFrame(s, s');
    }
    TokensFrame(s, s');
    OnlyRegistriesKeeps(s, s');
  }

  lemma RevokeTokenKeeps(s: World, request: RequestId)
    requires Sound(s)
    ensures Sound(WorldStep(s, RevokeToken(request)))
  {
    var s' := WorldStep(s, RevokeToken(request));
    hide LoginsSound, RaisesSound, VerdictsSound, RegistriesSound;
    if request in s.principals && s.principals[request].field in s.tokens {
      var principal := s.principals[request];
      var record := s.tokens[principal.field].record.(tokenVersion := principal.version);
      var view := Revoke(s.RegistryOf(record.user), s.now, principal.field, record).0;
      KnownRegistry(s, record.user, view);
      RegistryReplaced(s, s', record.user, view);
      assert PrincipalsSound(s');
    } else {
      RegistriesFrame(s, s');
    }
    TokensFrame(s, s');
    OnlyRegistriesKeeps(s, s');
  }

  lemma ListSessionsKeeps(s: World, user: UserId, version: nat)
    requires Sound(s)
    ensures Sound(WorldStep(s, ListSessions(user, version)))
  {
    var s' := WorldStep(s, ListSessions(user, version));
    hide LoginsSound, RaisesSound, VerdictsSound, RegistriesSound;
    var view := List(s.RegistryOf(user), s.now, version).0;
    KnownRegistry(s, user, view);
    RegistryReplaced(s, s', user, view);
    TokensFrame(s, s');
    OnlyRegistriesKeeps(s, s');
  }

  lemma TimePassesKeeps(s: World, us: nat)
    requires Sound(s)
    ensures Sound(WorldStep(s, TimePasses(us)))
  {
    var s' := WorldStep(s, TimePasses(us));
    hide LoginsSound, RaisesSound, VerdictsSound;
    assert RegistriesSound(s');
    TokensFrame(s, s');
    OnlyRegistriesKeeps(s, s');
  }

  /** The heart of the matter: equal versions at the read mean that no raise lies in between. */
  lemma VerdictExact(s: World, login: Login)
    requires LoginsSound(s) && RaisesSound(s) && exists l :: l in s.logins && s.logins[l] == login
    ensures login.user in s.tables.users
    ensures s.tables.users[login.user].tokenVersion == login.version <==> !RevokedBetween(s, login, s.step)
  {
    var l :| l in s.logins && s.logins[l] == login;
    if s.tables.users[login.user].tokenVersion == login.version {
      forall r | r in s.raises && r.user == login.user ensures !Follows(login, r) {
        assert Ordered(s.logins[l], r);
      }
    } else {
      var r :| r in s.raises && Follows(login, r);
      assert r.at < s.step;
    }
  }

  lemma ReadAuthorityKeeps(s: World, request: RequestId)
    requires Sound(s)
    ensures Sound(WorldStep(s, ReadAuthority(request)))
  {
    var s' := WorldStep(s, ReadAuthority(request));
    hide RegistriesSound, VerdictsSound, PrincipalsSound, TokensSound;
    RegistriesFrame(s, s');
    TokensFrame(s, s');
    ReadVerdicts(s, request);
  }

  lemma ReadVerdicts(s: World, request: RequestId)
    requires LoginsSound(s) && RaisesSound(s) && TokensSound(s) && PrincipalsSound(s) && VerdictsSound(s)
    ensures VerdictsSound(WorldStep(s, ReadAuthority(request)))
  {
    hide VerdictsSound, PrincipalsSound, TokensSound, RaisesSound;
    LoginVerdicts(s, s.(step := s.step + 1));
    if request in s.principals && request !in s.verdicts {
      PrincipalLogin(s, request);
      VerdictExact(s, s.logins[s.tokens[s.principals[request].field].login]);
      NewVerdict(s, WorldStep(s, ReadAuthority(request)), request);
    }
  }

  lemma PrincipalLogin(s: World, request: RequestId)
    requires PrincipalsSound(s) && TokensSound(s) && request in s.principals
    ensures s.principals[request].field in s.tokens && s.tokens[s.principals[request].field].login in s.logins
  {
  }

  lemma NewVerdict(s: World, s': World, request: RequestId)
    requires VerdictsSound(s.(step := s.step + 1)) && PrincipalsSound(s) && TokensSound(s)
    requires request in s.principals && request !in s.verdicts && s' == WorldStep(s, ReadAuthority(request))
    requires var login := s.logins[s.tokens[s.principals[request].field].login];
             login.user in s.tables.users
             && (s.tables.users[login.user].tokenVersion == login.version <==> !RevokedBetween(s, login, s.step))
    ensures VerdictsSound(s')
  {
    forall q | q in s'.verdicts && q != request
      ensures var verdict := s'.verdicts[q]; var login := s'.logins[s'.tokens[verdict.field].login];
              RevokedBetween(s', login, verdict.at) == RevokedBetween(s.(step := s.step + 1), login, verdict.at)
    {
      assert s'.verdicts[q] == s.verdicts[q];
    }
    var login := s.logins[s.tokens[s.principals[request].field].login];
    assert RevokedBetween(s', login, s.step) == RevokedBetween(s, login, s.step);
  }

  lemma StepKeeps(s: World, e: Event)
    requires Sound(s)
    ensures Sound(WorldStep(s, e))
  {
    hide Sound;
    match e
    case Authenticate(login, user) => AuthenticateKeeps(s, login, user);
    case Issue(login, field, iat, exp, maximum) => IssueKeeps(s, login, field, iat, exp, maximum);
    case ReadRegistry(request, field) => ReadRegistryKeeps(s, request, field);
    case ReadAuthority(request) => ReadAuthorityKeeps(s, request);
    case RevokeToken(request) => RevokeTokenKeeps(s, request);
    case ListSessions(user, version) => ListSessionsKeeps(s, user, version);
    case Transact(change) =>
      TransactionsGrow(s.tables, change);
      CommitKeeps(s, AccessTables.Next(s.tables, change));
    case ReplaceOwnPassword(user, version) => CommitKeeps(s, OwnPasswordReplaced(s.tables, user, version));
    case TimePasses(us) => TimePassesKeeps(s, us);
  }

  /** Nobody has logged in and nothing is registered. */
  ghost predicate Fresh(s: World) {
    s.registries == map[] && s.logins == map[] && s.tokens == map[] && s.principals == map[] && s.verdicts == map[]
    && s.raises == {}
  }

  lemma {:induction false} RunSound(s: World, events: seq<Event>)
    requires Sound(s)
    ensures Sound(WorldRun(s, events))
    decreases |events|
  {
    if events != [] {
      StepKeeps(s, events[0]);
      hide Sound, WorldStep;
      RunSound(WorldStep(s, events[0]), events[1..]);
    }
  }

  /**
   In every interleaving, a request is admitted exactly when its user's row was
   live and active at the authority read and no commit since the login had
   raised the user's token version; so once a commit raises it, no request
   whose authority is read afterwards is admitted on an earlier login.
   */
  lemma RevocationOverRuns(s: World, events: seq<Event>, q: RequestId)
    requires Fresh(s) && q in WorldRun(s, events).verdicts
    ensures var end := WorldRun(s, events); var verdict := end.verdicts[q];
            verdict.field in end.tokens && end.tokens[verdict.field].login in end.logins
            && var login := end.logins[end.tokens[verdict.field].login];
            && (verdict.admitted <==>
                verdict.active && forall r :: r in end.raises && r.user == login.user && login.at < r.at ==> verdict.at <= r.at)
  {
    assert Sound(s);
    RunSound(s, events);
    var end := WorldRun(s, events);
    var login := end.logins[end.tokens[end.verdicts[q].field].login];
    assert forall r :: Follows(login, r) <==> r.user == login.user && login.at < r.at;
  }
}
