/**
 Password login with transparent rehashing, racing with password changes,
 resets and other logins on one account row.  Hash work happens outside row
 locks: a client reads a snapshot, works on it, then locks the row and checks
 that nothing it relied on has changed.
 */
module Login {
  import opened Wrappers

  type ClientId = nat

  // ----- hashes -----

  datatype Params = Params(isArgon2id: bool, version: nat, memoryKiB: nat, time: nat, lanes: nat, hashLength: nat, saltLength: nat)

  const CURRENT := Params(true, 19, 65_536, 3, 4, 32, 16)

  // An encoded hash stands for the password, salt and parameters it was made from.
  datatype Hash = Hash(password: string, salt: nat, params: Params)

  predicate Safe(p: Params) {
    && p.isArgon2id && p.version == 19 && p.memoryKiB <= CURRENT.memoryKiB && p.time <= CURRENT.time
    && p.lanes <= CURRENT.lanes && p.saltLength <= 64 && p.hashLength <= 64
  }

  const MAX_PASSWORD_CHARACTERS: nat := 60

  predicate Acceptable(password: string) {
    0 < |password| <= MAX_PASSWORD_CHARACTERS
  }

  datatype Failure = Refused | Unavailable

  datatype Verification = Verification(verified: bool, needsRehash: bool, usedDummy: bool)

  /** Without a stored hash a dummy is verified, which never counts. */
  function Verify(password: string, hash: Option<Hash>): Result<Verification, Failure> {
    if !Acceptable(password) then Err(Refused)
    else if hash.None? then Ok(Verification(false, false, true))
    else if !Safe(hash.value.params) then Err(Unavailable)
    else if hash.value.password != password then Ok(Verification(false, false, false))
    else Ok(Verification(true, hash.value.params != CURRENT, false))
  }

  function Fresh(password: string, salt: nat): Hash {
    Hash(password, salt, CURRENT)
  }

  // ----- the account row -----

  datatype Account = Account(
    name: string,
    active: bool,
    deleted: bool,
    tokenVersion: nat,
    hash: Option<Hash>,
    changedAt: nat,
    mustChange: bool
  )

  predicate SameIdentity(row: Account, snapshot: Account) {
    row.name == snapshot.name && !row.deleted
  }

  predicate SameLoginState(row: Account, snapshot: Account) {
    && SameIdentity(row, snapshot) && row.active == snapshot.active && row.tokenVersion == snapshot.tokenVersion
    && row.changedAt == snapshot.changedAt
  }

  predicate SamePasswordState(row: Account, snapshot: Account) {
    row.hash.Some? && row.hash == snapshot.hash && row.mustChange == snapshot.mustChange
  }

  function Rotated(row: Account, hash: Hash, mustChange: bool, at: nat): Account {
    row.(hash := Some(hash), mustChange := mustChange, changedAt := at, tokenVersion := row.tokenVersion + 1)
  }

  // ----- clients -----

  datatype Outcome = Granted(version: nat, mustChange: bool) | Changed | Failed(failure: Failure)

  datatype Client =
    // a login
    | LoginStart(name: string, password: string)
    | LoginVerify(password: string, found: Option<Account>)
    | LoginRehash(password: string, snapshot: Account)
    | LoginLock(password: string, snapshot: Account, replacement: Option<Hash>)
    | LoginRecheck(password: string, snapshot: Account)
    | LoginRelock(password: string, snapshot: Account)
    // a password change by a signed-in user
    | ChangeStart(version: nat, password: string, newPassword: string)
    | ChangeVerify(version: nat, password: string, newPassword: string, found: Option<Account>)
    | ChangeHash(version: nat, password: string, newPassword: string, snapshot: Account)
    | ChangeLock(version: nat, password: string, snapshot: Account, newHash: Hash)
    // completing a reset with the temporary password
    | ResetStart(name: string, password: string, newPassword: string)
    | ResetVerify(password: string, newPassword: string, found: Option<Account>)
    | ResetHash(password: string, newPassword: string, snapshot: Account)
    | ResetLock(password: string, snapshot: Account, newHash: Hash)
    | Done(outcome: Outcome)

  // Outside choices of one step: the salt drawn, the database time, and the policy's verdict on a new password.
  datatype Input = Input(salt: nat, at: nat, policyOk: bool)

  function LoadByName(row: Option<Account>, name: string): Option<Account> {
    if row.Some? && row.value.name == name then row else None
  }

  function Fail(): Client {
    Done(Failed(Refused))
  }

  // ----- steps outside the row lock -----

  function AfterLoginVerify(password: string, found: Option<Account>): Client {
    match Verify(password, if found.Some? then found.value.hash else None)
    case Err(failure) => Done(Failed(failure))
    case Ok(verification) =>
      if found.None? || !verification.verified || verification.usedDummy || found.value.hash.None? || found.value.deleted
         || !found.value.active then Fail()
      else if verification.needsRehash then LoginRehash(password, found.value)
      else LoginLock(password, found.value, None)
  }

  function AfterLoginRecheck(password: string, snapshot: Account): Client {
    match Verify(password, snapshot.hash)
    case Err(failure) => Done(Failed(failure))
    case Ok(verification) =>
      if !verification.verified || verification.needsRehash || verification.usedDummy then Fail()
      else LoginRelock(password, snapshot)
  }

  function AfterChangeVerify(version: nat, password: string, newPassword: string, found: Option<Account>): Client {
    match Verify(password, if found.Some? then found.value.hash else None)
    case Err(failure) => Done(Failed(failure))
    case Ok(verification) =>
      if found.None? || !verification.verified || found.value.hash.None? || found.value.deleted || !found.value.active
         || found.value.mustChange || found.value.tokenVersion != version then Fail()
      else ChangeHash(version, password, newPassword, found.value)
  }

  function AfterResetVerify(password: string, newPassword: string, found: Option<Account>): Client {
    match Verify(password, if found.Some? then found.value.hash else None)
    case Err(failure) => Done(Failed(failure))
    case Ok(verification) =>
      if found.None? || !verification.verified || found.value.hash.None? || found.value.deleted || !found.value.active
         || !found.value.mustChange then Fail()
      else ResetHash(password, newPassword, found.value)
  }

  // ----- sections under the row lock -----

  /** Only live rows are locked. */
  function Locked(row: Option<Account>): Option<Account> {
    if row.Some? && !row.value.deleted then row else None
  }

  function LoginLockSection(row: Option<Account>, password: string, snapshot: Account, replacement: Option<Hash>)
    : (Option<Account>, Client)
  {
    if Locked(row).None? || !SameLoginState(row.value, snapshot) || row.value.mustChange != snapshot.mustChange then (row, Fail())
    else if row.value.hash == snapshot.hash then
      (if replacement.Some? then Some(row.value.(hash := replacement)) else row,
       Done(Granted(row.value.tokenVersion, row.value.mustChange)))
    else if replacement.None? || row.value.hash.None? then (row, Fail())
    else (row, LoginRecheck(password, row.value))
  }

  function LoginRelockSection(row: Option<Account>, snapshot: Account): Client {
    if Locked(row).None? || !SameLoginState(row.value, snapshot) || !SamePasswordState(row.value, snapshot) then Fail()
    else Done(Granted(row.value.tokenVersion, row.value.mustChange))
  }

  function ChangeLockSection(row: Option<Account>, version: nat, snapshot: Account, newHash: Hash, at: nat)
    : (Option<Account>, Client)
  {
    if Locked(row).None? || !row.value.active || row.value.tokenVersion != version || !SameIdentity(row.value, snapshot)
       || !SamePasswordState(row.value, snapshot) then (row, Fail())
    else (Some(Rotated(row.value, newHash, false, at)), Done(Changed))
  }

  function ResetLockSection(row: Option<Account>, snapshot: Account, newHash: Hash, at: nat): (Option<Account>, Client) {
    if Locked(row).None? || !row.value.active || !SameLoginState(row.value, snapshot) || !SamePasswordState(row.value, snapshot)
       || !row.value.mustChange then (row, Fail())
    else (Some(Rotated(row.value, newHash, false, at)), Done(Changed))
  }

  // ----- the lock sections in place -----

  class AccountRow {
    var row: Option<Account>

    constructor (initial: Option<Account>)
      ensures row == initial
    {
      row := initial;
    }

    method SetHash(hash: Hash)
      requires row.Some?
      modifies this
      ensures row == Some(old(row).value.(hash := Some(hash)))
    {
      row := Some(row.value.(hash := Some(hash)));
    }

    method RotatePassword(hash: Hash, mustChange: bool, at: nat)
      requires row.Some?
      modifies this
      ensures row == Some(old(row).value.(hash := Some(hash), mustChange := mustChange, changedAt := at))
    {
      SetHash(hash);
      row := Some(row.value.(mustChange := mustChange));
      row := Some(row.value.(changedAt := at));
    }

    method LockForLogin(password: string, snapshot: Account, replacement: Option<Hash>) returns (next: Client)
      modifies this
      ensures (row, next) == LoginLockSection(old(row), password, snapshot, replacement)
    {
      if row.None? || row.value.deleted || !SameLoginState(row.value, snapshot) {
        return Done(Failed(Refused));
      }
      if row.value.mustChange != snapshot.mustChange {
        return Done(Failed(Refused));
      }
      if row.value.hash == snapshot.hash {
        if replacement.Some? {
          SetHash(replacement.value);
        }
        return Done(Granted(row.value.tokenVersion, row.value.mustChange));
      }
      if replacement.None? || row.value.hash.None? {
        return Done(Failed(Refused));
      }
      return LoginRecheck(password, row.value);
    }

    method LockForChange(version: nat, snapshot: Account, newHash: Hash, at: nat) returns (next: Client)
      modifies this
      ensures (row, next) == ChangeLockSection(old(row), version, snapshot, newHash, at)
    {
      if row.None? || row.value.deleted || !row.value.active || row.value.tokenVersion != version
         || !SameIdentity(row.value, snapshot) {
        return Done(Failed(Refused));
      }
      if !SamePasswordState(row.value, snapshot) {
        return Done(Failed(Refused));
      }
      RotatePassword(newHash, false, at);
      row := Some(row.value.(tokenVersion := row.value.tokenVersion + 1));
      return Done(Changed);
    }

    method LockForReset(snapshot: Account, newHash: Hash, at: nat) returns (next: Client)
      modifies this
      ensures (row, next) == ResetLockSection(old(row), snapshot, newHash, at)
    {
      if row.None? || row.value.deleted || !row.value.active || !SameIdentity(row.value, snapshot) {
        return Done(Failed(Refused));
      }
      if !SameLoginState(row.value, snapshot) || !SamePasswordState(row.value, snapshot) {
        return Done(Failed(Refused));
      }
      if !row.value.mustChange {
        return Done(Failed(Refused));
      }
      RotatePassword(newHash, false, at);
      row := Some(row.value.(tokenVersion := row.value.tokenVersion + 1));
      return Done(Changed);
    }
  }

  // ----- the machine -----

  datatype Grant = Grant(password: string, version: nat, mustChange: bool, row: Account)

  /** The row, the clients, and for each granted login the row as its last lock left it. */
  datatype World = World(row: Option<Account>, clients: map<ClientId, Client>, grants: seq<Grant>)

  datatype Event =
    | Begin(client: ClientId, start: Client)
    | Advance(client: ClientId, input: Input)
    | AdminReset(newPassword: string, temporary: bool, input: Input)
    | SetActive(active: bool)
    | EndSessions

  predicate Starts(client: Client) {
    client.LoginStart?
    || (client.ChangeStart? && client.password != client.newPassword)
    || (client.ResetStart? && client.password != client.newPassword)
  }

  /** One step of one client. */
  function ClientStep(row: Option<Account>, client: Client, input: Input): (Option<Account>, Client) {
    match client
    case LoginStart(name, password) => (row, LoginVerify(password, LoadByName(row, name)))
    case LoginVerify(password, found) => (row, AfterLoginVerify(password, found))
    case LoginRehash(password, snapshot) => (row, LoginLock(password, snapshot, Some(Fresh(password, input.salt))))
    case LoginLock(password, snapshot, replacement) => LoginLockSection(row, password, snapshot, replacement)
    case LoginRecheck(password, snapshot) => (row, AfterLoginRecheck(password, snapshot))
    case LoginRelock(_, snapshot) => (row, LoginRelockSection(row, snapshot))
    case ChangeStart(version, password, newPassword) => (row, ChangeVerify(version, password, newPassword, row))
    case ChangeVerify(version, password, newPassword, found) => (row, AfterChangeVerify(version, password, newPassword, found))
    case ChangeHash(version, password, newPassword, snapshot) =>
      (row, if input.policyOk then ChangeLock(version, password, snapshot, Fresh(newPassword, input.salt)) else Fail())
    case ChangeLock(version, _, snapshot, newHash) => ChangeLockSection(row, version, snapshot, newHash, input.at)
    case ResetStart(name, password, newPassword) => (row, ResetVerify(password, newPassword, LoadByName(row, name)))
    case ResetVerify(password, newPassword, found) => (row, AfterResetVerify(password, newPassword, found))
    case ResetHash(password, newPassword, snapshot) =>
      (row, if input.policyOk then ResetLock(password, snapshot, Fresh(newPassword, input.salt)) else Fail())
    case ResetLock(_, snapshot, newHash) => ResetLockSection(row, snapshot, newHash, input.at)
    case Done(_) => (row, client)
  }

  function GrantOf(before: Client, row: Option<Account>, after: Client): seq<Grant> {
    if (before.LoginLock? || before.LoginRelock?) && after.Done? && after.outcome.Granted? && row.Some?
    then [Grant(before.password, after.outcome.version, after.outcome.mustChange, row.value)] else []
  }

  function AfterAdvance(w: World, client: ClientId, input: Input): World {
    if client !in w.clients then w
    else
      var (row, next) := ClientStep(w.row, w.clients[client], input);
      World(row, w.clients[client := next], w.grants + GrantOf(w.clients[client], row, next))
  }

  function Step(w: World, e: Event): World {
    match e
    case Begin(client, start) =>
      if client in w.clients || !Starts(start) then w else w.(clients := w.clients[client := start])
    case Advance(client, input) => AfterAdvance(w, client, input)
    case AdminReset(newPassword, temporary, input) =>
      if Locked(w.row).None? then w
      else w.(row := Some(Rotated(w.row.value, Fresh(newPassword, input.salt), temporary, input.at)))
    case SetActive(active) =>
      if Locked(w.row).None? || w.row.value.active == active then w
      else w.(row := Some(w.row.value.(active := active, tokenVersion := w.row.value.tokenVersion + 1)))
    case EndSessions =>
      if Locked(w.row).None? then w
      else w.(row := Some(w.row.value.(tokenVersion := w.row.value.tokenVersion + 1)))
  }

  function Run(w: World, events: seq<Event>): World
    decreases |events|
  {
    if events == [] then w else Run(Step(w, events[0]), events[1..])
  }

  // ----- safety -----

  /** A snapshot whose stored hash encodes the password the client submitted. */
  ghost predicate Proven(snapshot: Account, password: string) {
    snapshot.hash.Some? && snapshot.hash.value.password == password && Safe(snapshot.hash.value.params)
    && snapshot.active && !snapshot.deleted && Acceptable(password)
  }

  ghost predicate ClientSound(client: Client) {
    match client
    case LoginRehash(password, snapshot) => Proven(snapshot, password) && snapshot.hash.value.params != CURRENT
    case LoginLock(password, snapshot, replacement) =>
      && Proven(snapshot, password) && (replacement.Some? <==> snapshot.hash.value.params != CURRENT)
      && (replacement.Some? ==> replacement.value.password == password && replacement.value.params == CURRENT)
    case LoginRecheck(password, snapshot) => snapshot.hash.Some? && snapshot.active && !snapshot.deleted
    case LoginRelock(password, snapshot) => Proven(snapshot, password) && snapshot.hash.value.params == CURRENT
    case ChangeHash(version, password, newPassword, snapshot) => Proven(snapshot, password) && password != newPassword
    case ChangeLock(version, password, snapshot, newHash) => Proven(snapshot, password) && password != newHash.password
    case ResetHash(password, newPassword, snapshot) => Proven(snapshot, password) && password != newPassword
    case ResetLock(password, snapshot, newHash) => Proven(snapshot, password) && password != newHash.password
    case ChangeStart(_, password, newPassword) => password != newPassword
    case ChangeVerify(_, password, newPassword, _) => password != newPassword
    case ResetStart(_, password, newPassword) => password != newPassword
    case ResetVerify(password, newPassword, _) => password != newPassword
    case _ => true
  }

  /** The granted version is the row's own, and the row's hash encodes the submitted password. */
  ghost predicate GrantSound(g: Grant) {
    Proven(g.row, g.password) && g.version == g.row.tokenVersion && g.mustChange == g.row.mustChange
  }

  ghost predicate Sound(w: World) {
    && (forall c :: c in w.clients ==> ClientSound(w.clients[c]))
    && (forall i :: 0 <= i < |w.grants| ==> GrantSound(w.grants[i]))
  }

  lemma LoginStepSound(row: Option<Account>, client: Client, input: Input)
    requires ClientSound(client) && IsLogin(client)
    ensures ClientSound(ClientStep(row, client, input).1)
  {
  }

  lemma ClientStepSound(row: Option<Account>, client: Client, input: Input)
    requires ClientSound(client)
    ensures ClientSound(ClientStep(row, client, input).1)
  {
    if IsLogin(client) {
      LoginStepSound(row, client, input);
    } else {
      hide LoginLockSection, LoginRelockSection, AfterLoginVerify, AfterLoginRecheck;
    }
  }

  lemma ClientGrantSound(row: Option<Account>, client: Client, input: Input)
    requires ClientSound(client)
    ensures var (row', next) := ClientStep(row, client, input); forall g :: g in GrantOf(client, row', next) ==> GrantSound(g)
  {
    if client.LoginLock? {
      hide Verify;
    } else if client.LoginRelock? {
      hide Verify;
    }
  }

  lemma StepSound(w: World, e: Event)
    requires Sound(w)
    ensures Sound(Step(w, e))
  {
    if e.Advance? && e.client in w.clients {
      ClientStepSound(w.row, w.clients[e.client], e.input);
      ClientGrantSound(w.row, w.clients[e.client], e.input);
      hide ClientStep, GrantOf, GrantSound, ClientSound;
      var grants := w.grants;
      var (row, next) := ClientStep(w.row, w.clients[e.client], e.input);
      var more := GrantOf(w.clients[e.client], row, next);
      assert forall i :: 0 <= i < |grants + more| ==> i < |grants| || (grants + more)[i] in more;
    }
  }

  lemma {:induction false} RunSound(w: World, events: seq<Event>)
    requires Sound(w)
    ensures Sound(Run(w, events))
    decreases |events|
  {
    if events != [] {
      StepSound(w, events[0]);
      hide Sound, Step;
      RunSound(Step(w, events[0]), events[1..]);
    }
  }

  /**
   In every interleaving, each granted login saw at its last lock a live,
   active row whose hash encodes the submitted password, and was given that
   row's own token version.
   */
  lemma GrantsAreCurrent(w: World, events: seq<Event>, i: nat)
    requires w.clients == map[] && w.grants == [] && i < |Run(w, events).grants|
    ensures var g := Run(w, events).grants[i];
            && g.version == g.row.tokenVersion && g.mustChange == g.row.mustChange && g.row.active && !g.row.deleted
            && g.row.hash.Some? && g.row.hash.value.password == g.password
  {
    RunSound(w, events);
  }

  // ----- a rehash is not a password change -----

  predicate IsLogin(client: Client) {
    client.LoginStart? || client.LoginVerify? || client.LoginRehash? || client.LoginLock? || client.LoginRecheck?
    || client.LoginRelock?
  }

  /** The row up to the salt and parameters of its hash. */
  ghost predicate SameCredential(a: Account, b: Account) {
    && b == a.(hash := b.hash) && a.hash.Some? == b.hash.Some?
    && (a.hash.Some? ==> b.hash.value.password == a.hash.value.password)
  }

  /** No step of a login changes anything but the parameters of the hash, and those only to the current ones. */
  lemma RehashKeepsCredential(row: Option<Account>, client: Client, input: Input)
    requires ClientSound(client) && IsLogin(client)
    ensures var (row', _) := ClientStep(row, client, input);
            row'.Some? == row.Some?
            && (row.Some? ==> SameCredential(row.value, row'.value))
            && (row' != row ==> row.value.hash.value.params != CURRENT && row'.value.hash.value.params == CURRENT)
  {
  }

  /**
   A change or completed reset commits only while the row still holds the
   very hash its client verified; then the row encodes the new password, which
   differs from the old one, under the next token version.
   */
  lemma ChangeNeedsVerifiedHash(row: Option<Account>, client: Client, input: Input)
    requires ClientSound(client) && !IsLogin(client)
    ensures var (row', next) := ClientStep(row, client, input);
            row' != row ==>
              && row.Some? && Proven(row.value, client.password) && row.value.hash == client.snapshot.hash
              && row'.Some? && row'.value.hash.Some? && row'.value.hash.value.password != client.password
              && row'.value.tokenVersion == row.value.tokenVersion + 1 && next == Done(Changed)
  {
  }

  // ----- progress -----

  /** The row still stands for the same account state, its hash usable and never moving off the current parameters. */
  ghost predicate Stands(base: Account, row: Option<Account>) {
    base.hash.Some? && row.Some? && SameCredential(base, row.value) && Proven(row.value, base.hash.value.password)
  }

  /** What the client relied on may since have been rehashed by someone else, once. */
  ghost predicate Reliable(base: Account, snapshot: Account, row: Account) {
    && SameCredential(base, snapshot) && snapshot.hash.Some? && Safe(snapshot.hash.value.params)
    && (row.hash != snapshot.hash ==>
          snapshot.hash.value.params != CURRENT && row.hash.Some? && row.hash.value.params == CURRENT)
  }

  ghost predicate Winning(base: Account, row: Account, client: Client)
    requires base.hash.Some?
  {
    var password := base.hash.value.password;
    match client
    case LoginStart(name, p) => name == base.name && p == password
    case LoginVerify(p, found) => p == password && found.Some? && Reliable(base, found.value, row)
    case LoginRehash(p, snapshot) => p == password && Reliable(base, snapshot, row)
    case LoginLock(p, snapshot, replacement) => p == password && Reliable(base, snapshot, row)
    case LoginRecheck(p, snapshot) =>
      p == password && Reliable(base, snapshot, row) && snapshot.hash.value.params == CURRENT
    case LoginRelock(p, snapshot) => p == password && Reliable(base, snapshot, row)
    case Done(outcome) => outcome == Granted(base.tokenVersion, base.mustChange)
    case _ => false
  }

  /** The client's own step keeps it winning. */
  lemma WinningAdvances(base: Account, row: Option<Account>, client: Client, input: Input)
    requires base.hash.Some? && Stands(base, row) && Winning(base, row.value, client) && ClientSound(client)
    ensures var (row', next) := ClientStep(row, client, input); Stands(base, row') && Winning(base, row'.value, next)
  {
    if client.LoginLock? {
      WinningLocks(base, row, client);
    } else {
      hide LoginLockSection;
    }
  }

  lemma WinningLocks(base: Account, row: Option<Account>, client: Client)
    requires base.hash.Some? && Stands(base, row) && Winning(base, row.value, client) && ClientSound(client) && client.LoginLock?
    ensures var (row', next) := LoginLockSection(row, client.password, client.snapshot, client.replacement);
            Stands(base, row') && Winning(base, row'.value, next)
  {
    hide Verify;
  }

  /** A change of the row by anybody else that leaves the credential alone keeps it winning. */
  lemma WinningSurvives(base: Account, row: Account, row': Account, client: Client)
    requires base.hash.Some? && Winning(base, row, client)
    requires row'.hash != row.hash ==> row.hash.Some? && row.hash.value.params != CURRENT
                                       && row'.hash.Some? && row'.hash.value.params == CURRENT
    ensures Winning(base, row', client)
  {
  }

  /** No password, status or session commit happened: every state so far had the same credential. */
  ghost predicate Undisturbed(w: World, events: seq<Event>)
    decreases |events|
  {
    events == [] ||
    (w.row.Some? && Step(w, events[0]).row.Some? && SameCredential(w.row.value, Step(w, events[0]).row.value)
     && Undisturbed(Step(w, events[0]), events[1..]))
  }

  lemma UndisturbedStep(base: Account, w: World, e: Event, client: ClientId)
    requires Sound(w) && base.hash.Some? && Stands(base, w.row)
    requires Step(w, e).row.Some? && SameCredential(w.row.value, Step(w, e).row.value)
    requires client in w.clients && Winning(base, w.row.value, w.clients[client])
    ensures var w' := Step(w, e);
            Stands(base, w'.row) && client in w'.clients && Winning(base, w'.row.value, w'.clients[client])
  {
    if e.Advance? && e.client in w.clients {
      var acting := w.clients[e.client];
      if IsLogin(acting) {
        RehashKeepsCredential(w.row, acting, e.input);
      } else {
        ChangeNeedsVerifiedHash(w.row, acting, e.input);
      }
      if e.client == client {
        WinningAdvances(base, w.row, acting, e.input);
      } else {
        hide ClientStep, Winning;
        WinningSurvives(base, w.row.value, Step(w, e).row.value, w.clients[client]);
      }
    } else {
      hide Winning;
      WinningSurvives(base, w.row.value, Step(w, e).row.value, w.clients[client]);
    }
  }

  lemma {:induction false} WinningRun(base: Account, w: World, events: seq<Event>, client: ClientId)
    requires Sound(w) && base.hash.Some? && Stands(base, w.row) && Undisturbed(w, events)
    requires client in w.clients && Winning(base, w.row.value, w.clients[client])
    ensures var end := Run(w, events);
            Stands(base, end.row) && client in end.clients && Winning(base, end.row.value, end.clients[client])
    decreases |events|
  {
    if events != [] {
      StepSound(w, events[0]);
      UndisturbedStep(base, w, events[0], client);
      hide Step, Sound, Stands, Winning;
      WinningRun(base, Step(w, events[0]), events[1..], client);
    }
  }

  /**
   If no password, status or session commit intervenes, a login with correct
   credentials that finishes is granted, however many logins rehash meanwhile.
   */
  lemma CorrectCredentialsSucceed(w: World, events: seq<Event>, client: ClientId)
    requires Sound(w) && client in w.clients && w.clients[client].LoginStart? && w.row.Some?
    requires var row := w.row.value; row.name == w.clients[client].name && Proven(row, w.clients[client].password)
    requires Undisturbed(w, events)
    ensures var end := Run(w, events);
            client in end.clients
            && (end.clients[client].Done? ==>
                  end.clients[client].outcome == Granted(w.row.value.tokenVersion, w.row.value.mustChange))
  {
    WinningRun(w.row.value, w, events, client);
  }

  // ----- when a password change or a completed reset commits -----

  /** The client has read `base`, whose password it knows, and needs nothing but the lock to go through. */
  ghost predicate Pursuing(base: Account, client: Client) {
    match client
    case ChangeVerify(version, password, newPassword, found) =>
      found == Some(base) && Proven(base, password) && version == base.tokenVersion && !base.mustChange
    case ChangeHash(version, password, newPassword, snapshot) =>
      snapshot == base && Proven(base, password) && version == base.tokenVersion && !base.mustChange
    case ChangeLock(version, password, snapshot, newHash) =>
      snapshot == base && Proven(base, password) && version == base.tokenVersion && !base.mustChange
    case ResetVerify(password, newPassword, found) => found == Some(base) && Proven(base, password) && base.mustChange
    case ResetHash(password, newPassword, snapshot) => snapshot == base && Proven(base, password) && base.mustChange
    case ResetLock(password, snapshot, newHash) => snapshot == base && Proven(base, password) && base.mustChange
    case _ => false
  }

  /** About to read the row with correct credentials for a change or a completed reset. */
  ghost predicate ReadyToChange(row: Option<Account>, client: Client) {
    && row.Some? && (client.ChangeStart? || client.ResetStart?) && Proven(row.value, client.password)
    && (client.ChangeStart? ==> client.version == row.value.tokenVersion && !row.value.mustChange)
    && (client.ResetStart? ==> client.name == row.value.name && row.value.mustChange)
  }

  /** No commit by anyone else, while the new password passes the policy whenever it is asked. */
  ghost predicate OthersQuiet(w: World, events: seq<Event>, client: ClientId)
    decreases |events|
  {
    events == [] ||
    (&& (if events[0].Advance? && events[0].client == client then events[0].input.policyOk
         else w.row.Some? && Step(w, events[0]).row.Some? && SameCredential(w.row.value, Step(w, events[0]).row.value))
     && OthersQuiet(Step(w, events[0]), events[1..], client))
  }

  /** Before the client finishes, some other step, which can only be a login's rehash, replaces the stored hash. */
  ghost predicate RehashedBeforeLock(w: World, events: seq<Event>, client: ClientId)
    decreases |events|
  {
    && events != [] && client in w.clients && !w.clients[client].Done?
    && ((!(events[0].Advance? && events[0].client == client) && Step(w, events[0]).row != w.row)
        || RehashedBeforeLock(Step(w, events[0]), events[1..], client))
  }

  lemma {:induction false} DoneStays(w: World, events: seq<Event>, client: ClientId)
    requires client in w.clients && w.clients[client].Done?
    ensures client in Run(w, events).clients && Run(w, events).clients[client] == w.clients[client]
    decreases |events|
  {
    if events != [] {
      OthersKeepClient(w, events[0], client);
      hide Step;
      DoneStays(Step(w, events[0]), events[1..], client);
    }
  }

  lemma OthersKeepClient(w: World, e: Event, client: ClientId)
    requires client in w.clients && (w.clients[client].Done? || !(e.Advance? && e.client == client))
    ensures client in Step(w, e).clients && Step(w, e).clients[client] == w.clients[client]
  {
  }

  /** Someone else's quiet step leaves the row alone or replaces an outdated hash by a current one. */
  lemma QuietStepMayRehash(w: World, e: Event, client: ClientId)
    requires Sound(w) && w.row.Some? && Step(w, e).row.Some? && SameCredential(w.row.value, Step(w, e).row.value)
    ensures Step(w, e).row != w.row ==>
              && Step(w, e).row.value == w.row.value.(hash := Step(w, e).row.value.hash)
              && w.row.value.hash.Some? && w.row.value.hash.value.params != CURRENT
              && Step(w, e).row.value.hash.Some? && Step(w, e).row.value.hash.value.params == CURRENT
  {
    if e.Advance? && e.client in w.clients {
      var acting := w.clients[e.client];
      if IsLogin(acting) {
        RehashKeepsCredential(w.row, acting, e.input);
      } else {
        ChangeNeedsVerifiedHash(w.row, acting, e.input);
      }
    }
  }

  /** The client's own steps with a willing policy: on to the lock, which commits exactly on the hash that was read. */
  lemma PursuitAdvances(base: Account, row: Option<Account>, client: Client, input: Input)
    requires Pursuing(base, client) && ClientSound(client) && input.policyOk
    requires row.Some? && row.value == base.(hash := row.value.hash)
    ensures var next := ClientStep(row, client, input).1;
            if client.ChangeLock? || client.ResetLock? then
              next == if row.value.hash == base.hash then Done(Changed) else Done(Failed(Refused))
            else Pursuing(base, next) && ClientStep(row, client, input).0 == row
  {
  }

  lemma {:induction false} PursuitEnds(base: Account, w: World, events: seq<Event>, client: ClientId)
    requires Sound(w) && client in w.clients && Pursuing(base, w.clients[client])
    requires w.row.Some? && w.row.value == base.(hash := w.row.value.hash)
    requires w.row.value.hash != base.hash ==> w.row.value.hash.Some? && w.row.value.hash.value.params == CURRENT
    requires OthersQuiet(w, events, client)
    requires client in Run(w, events).clients && Run(w, events).clients[client].Done?
    ensures Run(w, events).clients[client]
         == if w.row.value.hash == base.hash && !RehashedBeforeLock(w, events, client) then Done(Changed) else Done(Failed(Refused))
    decreases |events|
  {
    if events == [] {
      assert false;
    } else {
      var next := Step(w, events[0]);
      StepSound(w, events[0]);
      if events[0].Advance? && events[0].client == client {
        PursuitAdvances(base, w.row, w.clients[client], events[0].input);
        if next.clients[client].Done? {
          DoneStays(next, events[1..], client);
        } else {
          PursuitEnds(base, next, events[1..], client);
        }
      } else {
        OthersKeepClient(w, events[0], client);
        QuietStepMayRehash(w, events[0], client);
        hide Step;
        PursuitEnds(base, next, events[1..], client);
      }
    }
  }

  lemma {:induction false} ClientsStay(w: World, events: seq<Event>, client: ClientId)
    requires client in w.clients
    ensures client in Run(w, events).clients
    decreases |events|
  {
    if events != [] {
      ClientsStay(Step(w, events[0]), events[1..], client);
    }
  }

  /**
   From its read on, with correct credentials, a new password that passes the
   policy and no commit by anyone else, a password change or a completed reset
   that finishes commits if and only if no login replaced the stored hash
   before its lock; otherwise it is refused.
   */
  lemma ChangeCommitsExactly(w: World, client: ClientId, input: Input, rest: seq<Event>)
    requires Sound(w) && client in w.clients && ReadyToChange(w.row, w.clients[client])
    requires OthersQuiet(Step(w, Advance(client, input)), rest, client)
    ensures var read := Step(w, Advance(client, input));
            var end := Run(read, rest);
            client in end.clients
            && (end.clients[client].Done? ==>
                  end.clients[client] == if RehashedBeforeLock(read, rest, client) then Done(Failed(Refused)) else Done(Changed))
  {
    var read := Step(w, Advance(client, input));
    StepSound(w, Advance(client, input));
    ClientsStay(read, rest, client);
    if Run(read, rest).clients[client].Done? {
      PursuitEnds(w.row.value, read, rest, client);
    }
  }

  lemma {:induction false} CurrentHashIsNeverRehashed(w: World, events: seq<Event>, client: ClientId)
    requires Sound(w) && w.row.Some? && w.row.value.hash.Some? && w.row.value.hash.value.params == CURRENT
    requires client in w.clients && Pursuing(w.row.value, w.clients[client])
    requires OthersQuiet(w, events, client)
    ensures !RehashedBeforeLock(w, events, client)
    decreases |events|
  {
    if events != [] {
      var next := Step(w, events[0]);
      StepSound(w, events[0]);
      if events[0].Advance? && events[0].client == client {
        PursuitAdvances(w.row.value, w.row, w.clients[client], events[0].input);
        if !next.clients[client].Done? {
          CurrentHashIsNeverRehashed(next, events[1..], client);
        }
      } else {
        OthersKeepClient(w, events[0], client);
        QuietStepMayRehash(w, events[0], client);
        hide Step;
        CurrentHashIsNeverRehashed(next, events[1..], client);
      }
    }
  }

  /** In particular a change on a hash that already has the current parameters always commits. */
  lemma CurrentHashAlwaysCommits(w: World, client: ClientId, input: Input, rest: seq<Event>)
    requires Sound(w) && client in w.clients && ReadyToChange(w.row, w.clients[client])
    requires w.row.value.hash.value.params == CURRENT
    requires OthersQuiet(Step(w, Advance(client, input)), rest, client)
    ensures var end := Run(Step(w, Advance(client, input)), rest);
            client in end.clients && (end.clients[client].Done? ==> end.clients[client] == Done(Changed))
  {
    StepSound(w, Advance(client, input));
    ChangeCommitsExactly(w, client, input, rest);
    CurrentHashIsNeverRehashed(Step(w, Advance(client, input)), rest, client);
  }

  // An outdated hash of the password "old", a change to "new" (client 0) and an ordinary login (client 1).
  const OUTDATED := Hash("old", 0, CURRENT.(time := 2))
  const ROW := Account("user", true, false, 0, Some(OUTDATED), 0, false)
  const ANY := Input(7, 9, true)

  function Racers(): World {
    World(Some(ROW), map[0 := ChangeStart(0, "old", "new"), 1 := LoginStart("user", "old")], [])
  }

  function Rehashed(): World {
    World(Some(ROW.(hash := Some(Fresh("old", 7)))),
          map[0 := ChangeVerify(0, "old", "new", Some(ROW)), 1 := Done(Granted(0, false))],
          [Grant("old", 0, false, ROW.(hash := Some(Fresh("old", 7))))])
  }

  lemma LoginRehashes()
    ensures var e := Advance(1, ANY); Run(Step(Racers(), Advance(0, ANY)), [e, e, e, e]) == Rehashed()
  {
    var read := Step(Racers(), Advance(0, ANY));
    var e := Advance(1, ANY);
    var change := ChangeVerify(0, "old", "new", Some(ROW));
    assert read == World(Some(ROW), map[0 := change, 1 := LoginStart("user", "old")], []);
    assert Step(read, e) == World(Some(ROW), map[0 := change, 1 := LoginVerify("old", Some(ROW))], []);
    var l2 := World(Some(ROW), map[0 := change, 1 := LoginRehash("old", ROW)], []);
    assert Step(Step(read, e), e) == l2;
    var l3 := World(Some(ROW), map[0 := change, 1 := LoginLock("old", ROW, Some(Fresh("old", 7)))], []);
    assert Step(l2, e) == l3;
    assert Step(l3, e) == Rehashed();
    RunFour(read, ANY);
  }

  lemma ChangeIsRefused()
    ensures var e := Advance(0, ANY); var end := Run(Rehashed(), [e, e, e]);
            0 in end.clients && end.clients[0] == Done(Failed(Refused)) && end.row == Rehashed().row
  {
    var e := Advance(0, ANY);
    var c1 := Step(Rehashed(), e);
    assert c1 == Rehashed().(clients := c1.clients) && c1.clients[0] == ChangeHash(0, "old", "new", ROW);
    var c2 := Step(c1, e);
    assert c2 == Rehashed().(clients := c2.clients) && c2.clients[0] == ChangeLock(0, "old", ROW, Fresh("new", 7));
    RunThree(Rehashed(), ANY);
  }

  /** A correct change loses to the rehash of a correct login that runs between its read and its lock. */
  lemma ChangeLosesRace()
    ensures ReadyToChange(Racers().row, Racers().clients[0])
    ensures var login, change := Advance(1, ANY), Advance(0, ANY);
            var end := Run(Run(Step(Racers(), change), [login, login, login, login]), [change, change, change]);
            0 in end.clients && end.clients[0] == Done(Failed(Refused))
            && end.row == Some(ROW.(hash := Some(Fresh("old", 7))))
  {
    LoginRehashes();
    ChangeIsRefused();
    hide Run, Step;
  }

  lemma RunThree(w: World, input: Input)
    ensures var e := Advance(0, input); Run(w, [e, e, e]) == Step(Step(Step(w, e), e), e)
  {
    hide Step;
    var e := Advance(0, input);
    assert [e, e, e][1..] == [e, e] && [e, e][1..] == [e] && [e][1..] == [];
    assert Run(Step(w, e), [e, e]) == Run(Step(Step(w, e), e), [e]);
  }

  lemma RunFour(w: World, input: Input)
    ensures var e := Advance(1, input); Run(w, [e, e, e, e]) == Step(Step(Step(Step(w, e), e), e), e)
  {
    hide Step;
    var e := Advance(1, input);
    assert [e, e, e, e][1..] == [e, e, e] && [e, e, e][1..] == [e, e] && [e, e][1..] == [e] && [e][1..] == [];
    assert Run(Step(w, e), [e, e, e]) == Run(Step(Step(w, e), e), [e, e]);
    assert Run(Step(Step(w, e), e), [e, e]) == Run(Step(Step(Step(w, e), e), e), [e]);
  }

  function StepsLeft(client: Client): nat {
    match client
    case LoginStart(_, _) => 6
    case LoginVerify(_, _) => 5
    case LoginRehash(_, _) => 4
    case LoginLock(_, _, _) => 3
    case LoginRecheck(_, _) => 2
    case LoginRelock(_, _) => 1
    case ChangeStart(_, _, _) => 4
    case ChangeVerify(_, _, _, _) => 3
    case ChangeHash(_, _, _, _) => 2
    case ChangeLock(_, _, _, _) => 1
    case ResetStart(_, _, _) => 4
    case ResetVerify(_, _, _) => 3
    case ResetHash(_, _, _) => 2
    case ResetLock(_, _, _) => 1
    case Done(_) => 0
  }

  /** No client waits for another: each of its own steps brings it nearer to its end. */
  lemma ClientsFinish(row: Option<Account>, client: Client, input: Input)
    requires !client.Done?
    ensures StepsLeft(ClientStep(row, client, input).1) < StepsLeft(client)
  {
  }
}
