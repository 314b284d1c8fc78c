/**
 What a login can count on, and until when: under the current version it gets
 a token, a registered token gets its verdict, and a committed revocation,
 reset, status change or password replacement ends every login before it.
 */
module AdmissionRuns {
  import opened Wrappers
  import opened Domain
  import opened AccessTables
  import opened AccessDelivery
  import opened Sessions
  import opened Admission

  // ----- what a run keeps -----

  lemma {:induction false} WorldRunInParts(s: World, first: seq<Admission.Event>, second: seq<Admission.Event>)
    ensures WorldRun(s, first + second) == WorldRun(WorldRun(s, first), second)
    decreases |first|
  {
    hide WorldStep;
    if first == [] {
      assert first + second == second;
    } else {
      assert (first + second)[1..] == first[1..] + second;
      WorldRunInParts(WorldStep(s, first[0]), first[1..], second);
    }
  }

  /** The world's records are never taken back, and verdicts bear the step at which they were given. */
  ghost predicate Continues(s: World, later: World) {
    && later.step >= s.step && s.raises <= later.raises
    && (forall l :: l in s.logins ==> l in later.logins && later.logins[l] == s.logins[l])
    && (forall f :: f in s.tokens ==> f in later.tokens && later.tokens[f] == s.tokens[f])
    && (forall q :: q in s.principals ==> q in later.principals && later.principals[q] == s.principals[q])
    && (forall q :: q in s.verdicts ==> q in later.verdicts && later.verdicts[q] == s.verdicts[q])
    && (forall q :: q in later.verdicts && q !in s.verdicts ==> later.verdicts[q].at >= s.step)
  }

  lemma StepContinues(s: World, e: Admission.Event)
    ensures Continues(s, WorldStep(s, e))
  {
    hide Activate, Read, Revoke, List, AtTime, AccessTables.Next, OwnPasswordReplaced;
  }

  lemma ContinuesOn(a: World, b: World, c: World)
    requires Continues(a, b) && Continues(b, c)
    ensures Continues(a, c)
  {
  }

  lemma {:induction false} RunContinues(s: World, events: seq<Admission.Event>)
    ensures Continues(s, WorldRun(s, events))
    decreases |events|
  {
    if events != [] {
      var next := WorldStep(s, events[0]);
      StepContinues(s, events[0]);
      hide WorldStep, Continues;
      RunContinues(next, events[1..]);
      ContinuesOn(s, next, WorldRun(next, events[1..]));
    }
  }

  // ----- what ends a user's logins -----

  /** A commit that ends the user's sessions: revocation, reset, a change of the active flag, or the user's own new password. */
  ghost predicate EndsLogins(t: Tables, e: Admission.Event, u: UserId) {
    match e
    case Transact(change) =>
      && Apply(t, change).Ok?
      && (change.RevokeUserSessionsRequest? || change.ResetUserPasswordRequest?
          || (change.UpdateUserStatusRequest? && u in t.users && t.users[u].active != change.active))
      && change.target == u
    case ReplaceOwnPassword(user, version) =>
      user == u && t.Live(u) && t.users[u].active && t.users[u].tokenVersion == version
    case _ => false
  }

  ghost function TablesAfter(t: Tables, e: Admission.Event): Tables {
    match e
    case Transact(change) => AccessTables.Next(t, change)
    case ReplaceOwnPassword(user, version) => OwnPasswordReplaced(t, user, version)
    case _ => t
  }

  lemma EndingStepsVersion(t: Tables, e: Admission.Event, u: UserId)
    requires EndsLogins(t, e, u)
    ensures var t' := TablesAfter(t, e);
            u in t.users && u in t'.users && t'.users[u].tokenVersion == t.users[u].tokenVersion + 1
  {
    hide Apply;
    if e.Transact? {
      var change := e.change;
      var t' := Apply(t, change).value;
      if change.RevokeUserSessionsRequest? {
        RevocationDelivered(t, change.ctx, u, t');
      } else if change.ResetUserPasswordRequest? {
        ResetDelivered(t, change.ctx, u, t');
      } else {
        StatusDelivered(t, change.ctx, u, change.active, t');
      }
    }
  }

  lemma EndingRaises(s: World, e: Admission.Event, u: UserId)
    requires EndsLogins(s.tables, e, u)
    ensures u in s.tables.users
    ensures Raise(u, s.tables.users[u].tokenVersion + 1, s.step) in WorldStep(s, e).raises
  {
    EndingStepsVersion(s.tables, e, u);
    var t' := TablesAfter(s.tables, e);
    assert WorldStep(s, e).raises == s.raises + Raised(s.tables, t', s.step) by {
      hide Apply, Raised, AccessTables.Next, OwnPasswordReplaced;
    }
    hide WorldStep, TablesAfter, EndsLogins;
  }

  /**
   After such a commit no request whose verdict is still to be given is ever
   admitted on a login of that user from before it, whatever happens then.
   */
  lemma EndedLoginsStayOut(s: World, before: seq<Admission.Event>, e: Admission.Event, after: seq<Admission.Event>, u: UserId, l: LoginId, q: RequestId)
    requires Fresh(s)
    requires var m := WorldRun(s, before); EndsLogins(m.tables, e, u) && l in m.logins && m.logins[l].user == u && q !in m.verdicts
    requires var end := WorldRun(WorldStep(WorldRun(s, before), e), after);
             q in end.verdicts && end.verdicts[q].field in end.tokens && end.tokens[end.verdicts[q].field].login == l
    ensures !WorldRun(WorldStep(WorldRun(s, before), e), after).verdicts[q].admitted
  {
    var m := WorldRun(s, before);
    assert Sound(s);
    RunSound(s, before);
    assert m.logins[l].at < m.step;
    hide *;
    EndedBeforeVerdict(m, e, after, u, l, q);
    EventBetween(s, before, e, after);
    RevocationOverRuns(s, before + ([e] + after), q);
  }

  lemma EventBetween(s: World, before: seq<Admission.Event>, e: Admission.Event, after: seq<Admission.Event>)
    ensures WorldRun(s, before + ([e] + after)) == WorldRun(WorldStep(WorldRun(s, before), e), after)
  {
    WorldRunInParts(s, before, [e] + after);
    hide WorldStep;
    assert ([e] + after)[1..] == after;
  }

  /** The raise lies between the login and every verdict that is still to be given. */
  lemma EndedBeforeVerdict(m: World, e: Admission.Event, after: seq<Admission.Event>, u: UserId, l: LoginId, q: RequestId)
    requires EndsLogins(m.tables, e, u) && l in m.logins && m.logins[l].user == u && m.logins[l].at < m.step && q !in m.verdicts
    requires q in WorldRun(WorldStep(m, e), after).verdicts
    ensures var end := WorldRun(WorldStep(m, e), after);
            && l in end.logins && end.logins[l] == m.logins[l]
            && exists r :: r in end.raises && r.user == u && m.logins[l].at < r.at < end.verdicts[q].at
  {
    EndingRaises(m, e, u);
    NoVerdictYet(m, e, u, q);
    StepContinues(m, e);
    hide WorldStep, EndsLogins;
    RunContinues(WorldStep(m, e), after);
    assert Raise(u, m.tables.users[u].tokenVersion + 1, m.step) in WorldRun(WorldStep(m, e), after).raises;
  }

  lemma NoVerdictYet(s: World, e: Admission.Event, u: UserId, q: RequestId)
    requires EndsLogins(s.tables, e, u) && q !in s.verdicts
    ensures q !in WorldStep(s, e).verdicts && WorldStep(s, e).step == s.step + 1
  {
    hide Apply;
  }

  // ----- what a login gets -----

  /** No registry is ahead of its user's token version. */
  ghost predicate RegistriesBehind(s: World) {
    forall u :: u in s.registries && s.registries[u].version.Some? ==>
      u in s.tables.users && s.registries[u].version.value <= s.tables.users[u].tokenVersion
  }

  lemma VersionAfterScripts(v: View, now: nat, field: Field, record: Record, maximum: int, version: nat)
    ensures var after := Activate(v, now, field, record, maximum).0;
            after.version == v.version || after.version == Some(record.tokenVersion)
    ensures Read(v, now, field).0.version == v.version && Revoke(v, now, field, record).0.version == v.version
    ensures List(v, now, version).0.version == v.version
    ensures AtTime(v, now).version == v.version || AtTime(v, now).version == None
  {
  }

  lemma OneRegistry(s: World, s': World, u: UserId)
    requires RegistriesBehind(s) && s'.tables == s.tables
    requires u in s'.registries && forall w :: w in s'.registries && w != u ==> w in s.registries && s'.registries[w] == s.registries[w]
    requires s'.registries[u].version == s.RegistryOf(u).version
             || (u in s.tables.users && s'.registries[u].version.Some?
                 && s'.registries[u].version.value <= s.tables.users[u].tokenVersion)
    ensures RegistriesBehind(s')
  {
  }

  lemma StepKeepsBehind(s: World, e: Admission.Event)
    requires RegistriesBehind(s) && LoginsSound(s)
    ensures RegistriesBehind(WorldStep(s, e))
  {
    hide RegistriesBehind, WorldStep;
    match e
    case Issue(login, field, iat, exp, maximum) => IssueKeepsBehind(s, login, field, iat, exp, maximum);
    case ReadRegistry(request, field) => ReadKeepsBehind(s, request, field);
    case RevokeToken(request) => RevokeKeepsBehind(s, request);
    case ListSessions(user, version) => ListKeepsBehind(s, user, version);
    case Transact(change) => TransactKeepsBehind(s, change);
    case ReplaceOwnPassword(_, _) => OtherStepsKeepBehind(s, e);
    case TimePasses(_) => OtherStepsKeepBehind(s, e);
    case Authenticate(_, _) => OtherStepsKeepBehind(s, e);
    case ReadAuthority(_) => OtherStepsKeepBehind(s, e);
  }

  lemma OtherStepsKeepBehind(s: World, e: Admission.Event)
    requires RegistriesBehind(s) && (e.ReplaceOwnPassword? || e.TimePasses? || e.Authenticate? || e.ReadAuthority?)
    ensures RegistriesBehind(WorldStep(s, e))
  {
  }

  lemma IssueKeepsBehind(s: World, login: LoginId, field: Field, iat: nat, exp: int, maximum: int)
    requires RegistriesBehind(s) && LoginsSound(s)
    ensures RegistriesBehind(WorldStep(s, Issue(login, field, iat, exp, maximum)))
  {
    if login in s.logins && field !in s.tokens {
      var user := s.logins[login].user;
      VersionAfterScripts(s.RegistryOf(user), s.now, field, Record(user, s.logins[login].version, iat, exp), maximum, 0);
      hide Activate, RegistriesBehind;
      OneRegistry(s, WorldStep(s, Issue(login, field, iat, exp, maximum)), user);
    }
  }

  lemma ReadKeepsBehind(s: World, request: RequestId, field: Field)
    requires RegistriesBehind(s)
    ensures RegistriesBehind(WorldStep(s, ReadRegistry(request, field)))
  {
    if request !in s.principals && field in s.tokens {
      var claims := s.tokens[field].record;
      VersionAfterScripts(s.RegistryOf(claims.user), s.now, field, claims, 1, 0);
      hide Read, RegistriesBehind;
      OneRegistry(s, WorldStep(s, ReadRegistry(request, field)), claims.user);
    }
  }

  lemma RevokeKeepsBehind(s: World, request: RequestId)
    requires RegistriesBehind(s)
    ensures RegistriesBehind(WorldStep(s, RevokeToken(request)))
  {
    if request in s.principals && s.principals[request].field in s.tokens {
      var principal := s.principals[request];
      var record := s.tokens[principal.field].record.(tokenVersion := principal.version);
      VersionAfterScripts(s.RegistryOf(record.user), s.now, principal.field, record, 1, 0);
      hide Revoke, RegistriesBehind;
      OneRegistry(s, WorldStep(s, RevokeToken(request)), record.user);
    }
  }

  lemma ListKeepsBehind(s: World, user: UserId, version: nat)
    requires RegistriesBehind(s)
    ensures RegistriesBehind(WorldStep(s, ListSessions(user, version)))
  {
    hide List, RegistriesBehind;
    VersionAfterScripts(s.RegistryOf(user), s.now, 0, Record(0, 0, 0, 0), 1, version);
    OneRegistry(s, WorldStep(s, ListSessions(user, version)), user);
  }

  lemma TransactKeepsBehind(s: World, change: Request)
    requires RegistriesBehind(s)
    ensures RegistriesBehind(WorldStep(s, Transact(change)))
  {
    hide AccessTables.Next;
    TransactionsGrow(s.tables, change);
  }

  lemma {:induction false} RunKeepsBehind(s: World, events: seq<Admission.Event>)
    requires RegistriesBehind(s) && Sound(s)
    ensures RegistriesBehind(WorldRun(s, events))
    decreases |events|
  {
    if events != [] {
      StepKeepsBehind(s, events[0]);
      StepKeeps(s, events[0]);
      hide Sound, WorldStep, RegistriesBehind;
      RunKeepsBehind(WorldStep(s, events[0]), events[1..]);
    }
  }

  /**
   In every reachable state a login whose version is still the row's own gets
   its token: a fresh id is filed with the login's user and version, and reads
   back.  In particular the first login after a raise is never turned away.
   */
  lemma CurrentLoginIsIssued(s: World, events: seq<Admission.Event>, l: LoginId, field: Field, iat: nat, exp: int, maximum: int)
    requires Fresh(s)
    requires var m := WorldRun(s, events);
             && l in m.logins && field !in m.tokens && maximum >= 1 && exp > Seconds(m.now)
             && var u := m.logins[l].user; u in m.tables.users && m.tables.users[u].tokenVersion == m.logins[l].version
    ensures var m := WorldRun(s, events);
            var record := Record(m.logins[l].user, m.logins[l].version, iat, exp);
            var next := WorldStep(m, Issue(l, field, iat, exp, maximum));
            && field in next.tokens && next.tokens[field] == Token(l, record)
            && Registered(next, field)
  {
    assert Sound(s) && RegistriesBehind(s);
    RunSound(s, events);
    RunKeepsBehind(s, events);
    hide WorldRun, WorldStep, Registered;
    NewTokenIsFiled(WorldRun(s, events), l, field, iat, exp, maximum);
  }

  lemma NewTokenIsFiled(m: World, l: LoginId, field: Field, iat: nat, exp: int, maximum: int)
    requires RegistriesSound(m) && RegistriesBehind(m)
    requires l in m.logins && field !in m.tokens && maximum >= 1 && exp > Seconds(m.now)
    requires var u := m.logins[l].user; u in m.tables.users && m.tables.users[u].tokenVersion == m.logins[l].version
    ensures var next := WorldStep(m, Issue(l, field, iat, exp, maximum));
            && field in next.tokens && next.tokens[field] == Token(l, Record(m.logins[l].user, m.logins[l].version, iat, exp))
            && Registered(next, field)
  {
    var u := m.logins[l].user;
    var record := Record(u, m.logins[l].version, iat, exp);
    var v := m.RegistryOf(u);
    assert FiledFromTokens(m.tokens, u, v);
    assert field !in v.records;
    ActivationAnswers(v, m.now, field, record, maximum);
    CreatedIsFiled(v, m.now, field, record, maximum);
    hide Activate, RegistriesSound, RegistriesBehind;
  }

  lemma CreatedIsFiled(v: View, now: nat, field: Field, record: Record, maximum: int)
    requires Activate(v, now, field, record, maximum).1 == Created
    ensures var after := Activate(v, now, field, record, maximum).0;
            field in after.records && after.records[field] == record && record.exp > Seconds(now)
  {
    var live := if v.version == Some(record.tokenVersion) then Prune(v, now) else EMPTY;
    var order := Newest(live.order + [field], maximum);
    assert order[|order| - 1] == field;
  }

  /** The registry still holds the token's record, unexpired. */
  ghost predicate Registered(s: World, field: Field) {
    && field in s.tokens
    && var record := s.tokens[field].record;
       var v := s.RegistryOf(record.user);
       field in v.records && v.records[field] == record && record.exp > Seconds(s.now)
  }

  /** So whatever happened before, a live active user who logs in next gets a registered token under the present version. */
  lemma NextLoginIsIssued(s: World, events: seq<Admission.Event>, l: LoginId, u: UserId, field: Field, iat: nat, exp: int,
                          maximum: int)
    requires Fresh(s)
    requires var m := WorldRun(s, events);
             && m.tables.Live(u) && m.tables.users[u].active && l !in m.logins && field !in m.tokens
             && maximum >= 1 && exp > Seconds(m.now)
    ensures var m := WorldRun(s, events);
            var next := WorldStep(WorldStep(m, Authenticate(l, u)), Issue(l, field, iat, exp, maximum));
            && Registered(next, field)
            && next.tokens[field] == Token(l, Record(u, m.tables.users[u].tokenVersion, iat, exp))
  {
    var m := WorldRun(s, events);
    var logged := WorldStep(m, Authenticate(l, u));
    assert WorldRun(s, events + [Authenticate(l, u)]) == logged by {
      WorldRunInParts(s, events, [Authenticate(l, u)]);
      assert [Authenticate(l, u)][1..] == [];
    }
    assert l in logged.logins && logged.logins[l] == Login(u, m.tables.users[u].tokenVersion, m.step);
    assert logged.tokens == m.tokens && logged.now == m.now && logged.tables == m.tables;
    hide *;
    CurrentLoginIsIssued(s, events + [Authenticate(l, u)], l, field, iat, exp, maximum);
  }

  /**
   A request with a registered token is let through to the database whatever
   happens in between, and is admitted exactly when its user's row is then
   live, active and still at the token's version.
   */
  lemma RegisteredTokenIsJudged(s: World, q: RequestId, field: Field, between: seq<Admission.Event>)
    requires Registered(s, field) && q !in s.principals && q !in s.verdicts
    requires forall i :: 0 <= i < |between| ==> between[i] != ReadAuthority(q)
    ensures var read := WorldStep(s, ReadRegistry(q, field));
            var end := WorldStep(WorldRun(read, between), ReadAuthority(q));
            var t, record := WorldRun(read, between).tables, s.tokens[field].record;
            && q in end.verdicts && end.verdicts[q].field == field
            && (end.verdicts[q].admitted <==>
                t.Live(record.user) && t.users[record.user].active && t.users[record.user].tokenVersion == record.tokenVersion)
  {
    var read := WorldStep(s, ReadRegistry(q, field));
    assert q in read.principals && read.principals[q] == Principal(field, s.tokens[field].record.tokenVersion);
    assert q !in read.verdicts && field in read.tokens && read.tokens == s.tokens;
    hide WorldStep, Registered;
    Unjudged(read, between, q);
    RunContinues(read, between);
    JudgedNow(WorldRun(read, between), q);
  }

  lemma JudgedNow(s: World, q: RequestId)
    requires q in s.principals && q !in s.verdicts && s.principals[q].field in s.tokens
    ensures var end := WorldStep(s, ReadAuthority(q));
            var principal := s.principals[q];
            var t, user := s.tables, s.tokens[principal.field].record.user;
            && q in end.verdicts && end.verdicts[q].field == principal.field
            && (end.verdicts[q].admitted <==>
                t.Live(user) && t.users[user].active && t.users[user].tokenVersion == principal.version)
  {
  }

  lemma NotJudgedBy(s: World, e: Admission.Event, q: RequestId)
    requires q !in s.verdicts && e != ReadAuthority(q)
    ensures q !in WorldStep(s, e).verdicts
  {
    hide Activate, Read, Revoke, List, AtTime, AccessTables.Next, OwnPasswordReplaced;
  }

  lemma {:induction false} Unjudged(s: World, events: seq<Admission.Event>, q: RequestId)
    requires q !in s.verdicts && forall i :: 0 <= i < |events| ==> events[i] != ReadAuthority(q)
    ensures q !in WorldRun(s, events).verdicts
    decreases |events|
  {
    if events != [] {
      NotJudgedBy(s, events[0], q);
      hide WorldStep;
      assert forall i :: 0 <= i < |events[1..]| ==> events[1..][i] == events[i + 1];
      Unjudged(WorldStep(s, events[0]), events[1..], q);
    }
  }

  // ----- logging out -----

  /** The token's user has no session of its id. */
  ghost predicate Gone(s: World, field: Field) {
    field in s.tokens && field !in s.RegistryOf(s.tokens[field].record.user).records
  }

  lemma NothingComesBack(v: View, now: nat, field: Field, record: Record, maximum: int, version: nat)
    ensures forall f :: f in Activate(v, now, field, record, maximum).0.records ==> f == field || f in v.records
    ensures forall f :: f in Read(v, now, field).0.records ==> f in v.records
    ensures forall f :: f in Revoke(v, now, field, record).0.records ==> f in v.records
    ensures forall f :: f in List(v, now, version).0.records ==> f in v.records
    ensures forall f :: f in AtTime(v, now).records ==> f in v.records
  {
    hide Without, Newest;
  }

  /** Every step leaves each registry with sessions it had, and at most one more, under a fresh id. */
  ghost predicate RegistriesShrink(s: World, s': World) {
    forall u: UserId, f: Field :: f in s.tokens && f in s'.RegistryOf(u).records ==> f in s.RegistryOf(u).records
  }

  lemma ScriptsShrink(s: World, e: Admission.Event)
    requires e.Issue? || e.ReadRegistry? || e.RevokeToken? || e.ListSessions?
    ensures RegistriesShrink(s, WorldStep(s, e))
  {
    match e
    case Issue(login, field, iat, exp, maximum) =>
      if login in s.logins && field !in s.tokens {
        var user := s.logins[login].user;
        NothingComesBack(s.RegistryOf(user), s.now, field, Record(user, s.logins[login].version, iat, exp), maximum, 0);
        hide Activate;
      }
    case ReadRegistry(request, field) =>
      if field in s.tokens {
        var record := s.tokens[field].record;
        NothingComesBack(s.RegistryOf(record.user), s.now, field, record, 1, 0);
        hide Read;
      }
    case RevokeToken(request) =>
      if request in s.principals && s.principals[request].field in s.tokens {
        var principal := s.principals[request];
        var record := s.tokens[principal.field].record.(tokenVersion := principal.version);
        NothingComesBack(s.RegistryOf(record.user), s.now, principal.field, record, 1, 0);
        hide Revoke;
      }
    case ListSessions(user, version) =>
      NothingComesBack(s.RegistryOf(user), s.now, 0, Record(0, 0, 0, 0), 1, version);
      hide List;
  }

  lemma OtherStepsShrink(s: World, e: Admission.Event)
    requires !(e.Issue? || e.ReadRegistry? || e.RevokeToken? || e.ListSessions?)
    ensures RegistriesShrink(s, WorldStep(s, e))
  {
    hide AccessTables.Next, OwnPasswordReplaced;
  }

  lemma {:induction false} GoneStays(s: World, events: seq<Admission.Event>, field: Field)
    requires Gone(s, field)
    ensures Gone(WorldRun(s, events), field)
    decreases |events|
  {
    if events != [] {
      var next := WorldStep(s, events[0]);
      StepContinues(s, events[0]);
      hide WorldStep;
      if events[0].Issue? || events[0].ReadRegistry? || events[0].RevokeToken? || events[0].ListSessions? {
        ScriptsShrink(s, events[0]);
      } else {
        OtherStepsShrink(s, events[0]);
      }
      GoneStays(next, events[1..], field);
    }
  }

  /** A token whose session is gone lets no further request through to the database. */
  lemma GoneIsTurnedAway(s: World, q: RequestId, field: Field)
    requires Gone(s, field) && q !in s.principals
    ensures q !in WorldStep(s, ReadRegistry(q, field)).principals
  {
  }

  /**
   In every reachable state, logging out with a request that was let through
   ends that request's token for good: no later request gets past the registry
   with it, whatever happens in between.
   */
  lemma LoggedOutStaysOut(s: World, before: seq<Admission.Event>, q: RequestId, after: seq<Admission.Event>, later: RequestId)
    requires Fresh(s)
    requires q in WorldRun(s, before).principals
    requires later !in WorldRun(WorldStep(WorldRun(s, before), RevokeToken(q)), after).principals
    ensures var m := WorldRun(s, before);
            later !in WorldStep(WorldRun(WorldStep(m, RevokeToken(q)), after), ReadRegistry(later, m.principals[q].field)).principals
  {
    var m := WorldRun(s, before);
    assert Sound(s);
    RunSound(s, before);
    hide WorldRun;
    LogoutRemoves(m, q);
    hide WorldStep, Gone;
    GoneStays(WorldStep(m, RevokeToken(q)), after, m.principals[q].field);
    GoneIsTurnedAway(WorldRun(WorldStep(m, RevokeToken(q)), after), later, m.principals[q].field);
  }

  lemma LogoutRemoves(m: World, q: RequestId)
    requires RegistriesSound(m) && PrincipalsSound(m) && q in m.principals
    ensures Gone(WorldStep(m, RevokeToken(q)), m.principals[q].field)
  {
    var field := m.principals[q].field;
    var record := m.tokens[field].record;
    assert FiledFromTokens(m.tokens, record.user, m.RegistryOf(record.user));
    assert record.(tokenVersion := m.principals[q].version) == record;
    hide RegistriesSound, PrincipalsSound;
  }
}
