/**
 What each committed password step leaves in the account row, column by
 column, and what the next login gets from it.
 */
module LoginDelivery {
  import opened Wrappers
  import opened Login

  /** A committed password: a hash of just this text with the current parameters, and the columns that go with it. */
  ghost predicate Stores(before: Option<Account>, after: Option<Account>, password: string, mustChange: bool, at: nat) {
    && before.Some? && after.Some? && after.value.hash.Some?
    && after.value.hash.value.password == password && after.value.hash.value.params == CURRENT
    && after.value == Account(before.value.name, before.value.active, before.value.deleted, before.value.tokenVersion + 1,
                              after.value.hash, at, mustChange)
  }

  /** What the client had read, and asks for, wherever it now stands. */
  ghost predicate Pursues(start: Client, client: Client) {
    match start
    case ChangeStart(v, p, np) =>
      || client == start
      || (client.ChangeVerify? && client.version == v && client.password == p && client.newPassword == np)
      || (client.ChangeHash? && client.version == v && client.password == p && client.newPassword == np
          && Proven(client.snapshot, p) && !client.snapshot.mustChange)
      || (client.ChangeLock? && client.version == v && client.password == p && client.newHash.password == np
          && client.newHash.params == CURRENT && Proven(client.snapshot, p) && !client.snapshot.mustChange)
      || (client.Done? && client.outcome.Failed?)
    case ResetStart(name, p, np) =>
      || client == start
      || (client.ResetVerify? && client.password == p && client.newPassword == np
          && (client.found.Some? ==> client.found.value.name == name))
      || (client.ResetHash? && client.password == p && client.newPassword == np && Proven(client.snapshot, p)
          && client.snapshot.mustChange && client.snapshot.name == name)
      || (client.ResetLock? && client.password == p && client.newHash.password == np && client.newHash.params == CURRENT
          && Proven(client.snapshot, p) && client.snapshot.mustChange && client.snapshot.name == name)
      || (client.Done? && client.outcome.Failed?)
    case _ => false
  }

  /** The row that may be changed: live, active, and holding the current password; a reset's has a temporary one. */
  ghost predicate Changeable(start: Client, row: Account)
    requires start.ChangeStart? || start.ResetStart?
  {
    && row.active && !row.deleted && row.hash.Some? && row.hash.value.password == start.password
    && row.mustChange == start.ResetStart?
    && (start.ChangeStart? ==> row.tokenVersion == start.version) && (start.ResetStart? ==> row.name == start.name)
  }

  lemma PursuitSteps(start: Client, row: Option<Account>, client: Client, input: Input)
    requires (start.ChangeStart? || start.ResetStart?) && Pursues(start, client)
    ensures var (row', next) := ClientStep(row, client, input);
            if next == Done(Changed) then
              row.Some? && Changeable(start, row.value) && Stores(row, row', start.newPassword, false, input.at)
            else row' == row && Pursues(start, next)
  {
  }

  lemma DoneOrPursues(start: Client, w: World, e: Event, client: ClientId)
    requires (start.ChangeStart? || start.ResetStart?) && client in w.clients && Pursues(start, w.clients[client])
    ensures var w' := Step(w, e);
            && client in w'.clients
            && (w'.clients[client] == Done(Changed) || Pursues(start, w'.clients[client]))
            && (w'.clients[client] == Done(Changed) ==>
                  && e.Advance? && e.client == client && w.row.Some? && Changeable(start, w.row.value)
                  && Stores(w.row, w'.row, start.newPassword, false, e.input.at))
  {
    if e.Advance? && e.client == client {
      PursuitSteps(start, w.row, w.clients[client], e.input);
      hide ClientStep, Pursues, Changeable, Stores;
    } else {
      OthersKeepClient(w, e, client);
      hide Step;
    }
  }

  /**
   In every interleaving, a password change or completed reset that is told
   it succeeded did so at its own lock: the row there held the password it
   knew, and then holds a current hash of exactly the password it asked for,
   no longer a temporary one, dated by the lock, under the next version.
   */
  lemma ChangeDelivered(start: Client, w: World, events: seq<Event>, client: ClientId) returns (k: nat)
    requires (start.ChangeStart? || start.ResetStart?) && client in w.clients && w.clients[client] == start
    requires client in Run(w, events).clients && Run(w, events).clients[client] == Done(Changed)
    ensures k < |events| && events[k].Advance? && events[k].client == client
    ensures var before, after := Run(w, events[..k]).row, Run(w, events[..k + 1]).row;
            before.Some? && Changeable(start, before.value) && Stores(before, after, start.newPassword, false, events[k].input.at)
  {
    k := PursuitDelivers(start, w, events, client);
  }

  lemma {:induction false} PursuitDelivers(start: Client, w: World, events: seq<Event>, client: ClientId) returns (k: nat)
    requires (start.ChangeStart? || start.ResetStart?) && client in w.clients && Pursues(start, w.clients[client])
    requires client in Run(w, events).clients && Run(w, events).clients[client] == Done(Changed)
    ensures k < |events| && events[k].Advance? && events[k].client == client
    ensures var before, after := Run(w, events[..k]).row, Run(w, events[..k + 1]).row;
            before.Some? && Changeable(start, before.value) && Stores(before, after, start.newPassword, false, events[k].input.at)
    decreases |events|
  {
    if events == [] {
      assert false;
    } else {
      var next := Step(w, events[0]);
      DoneOrPursues(start, w, events[0], client);
      hide Step, Pursues, Changeable, Stores;
      RunFirst(w, events);
      if next.clients[client] == Done(Changed) {
        k := 0;
      } else {
        var later := PursuitDelivers(start, next, events[1..], client);
        k := later + 1;
        RunTail(w, events, later);
        RunTail(w, events, later + 1);
      }
    }
  }

  lemma RunFirst(w: World, events: seq<Event>)
    requires events != []
    ensures Run(w, events[..0]) == w && Run(w, events[..1]) == Step(w, events[0])
  {
    hide Step;
    assert events[..0] == [] && events[..1] == [events[0]] && [events[0]][1..] == [];
    assert Run(Step(w, events[0]), []) == Step(w, events[0]);
  }

  lemma RunTail(w: World, events: seq<Event>, k: nat)
    requires events != [] && k <= |events[1..]|
    ensures Run(w, events[..k + 1]) == Run(Step(w, events[0]), events[1..][..k])
  {
    hide Step;
    assert events[..k + 1][1..] == events[1..][..k] && events[..k + 1][0] == events[0];
  }

  /** An administrative reset stores the given password as temporary or not as asked, and nothing on a missing or deleted row. */
  lemma AdminResetDelivered(w: World, newPassword: string, temporary: bool, input: Input)
    ensures var end := Run(w, [AdminReset(newPassword, temporary, input)]);
            && end.clients == w.clients && end.grants == w.grants
            && if w.row.Some? && !w.row.value.deleted then Stores(w.row, end.row, newPassword, temporary, input.at)
               else end.row == w.row
  {
    RunOne(w, AdminReset(newPassword, temporary, input));
  }

  /** Setting the flag steps the version of a live row, if it changes anything. */
  lemma FlagDelivered(w: World, active: bool)
    requires w.row.Some? && !w.row.value.deleted
    ensures var row := w.row.value;
            Run(w, [SetActive(active)]).row
            == if row.active == active then Some(row)
               else Some(Account(row.name, active, false, row.tokenVersion + 1, row.hash, row.changedAt, row.mustChange))
  {
    RunOne(w, SetActive(active));
    hide Run;
  }

  /** Ending the sessions steps the version and nothing else. */
  lemma SessionsEndDelivered(w: World)
    requires w.row.Some? && !w.row.value.deleted
    ensures var row := w.row.value;
            Run(w, [EndSessions]).row
            == Some(Account(row.name, row.active, false, row.tokenVersion + 1, row.hash, row.changedAt, row.mustChange))
  {
    RunOne(w, EndSessions);
    hide Run;
  }

  lemma RunOne(w: World, e: Event)
    ensures Run(w, [e]) == Step(w, e)
  {
    hide Step;
    assert [e][1..] == [];
    assert Run(Step(w, e), []) == Step(w, e);
  }

  /**
   And then an ordinary login with the new password that nobody's commit
   disturbs is granted under the new version, and not asked to change it.
   */
  lemma NewPasswordLogsIn(start: Client, before: Account, at: nat, w: World, events: seq<Event>, client: ClientId)
    requires (start.ChangeStart? || start.ResetStart?) && Changeable(start, before) && Acceptable(start.newPassword)
    requires Sound(w) && Stores(Some(before), w.row, start.newPassword, false, at)
    requires client in w.clients && w.clients[client] == LoginStart(before.name, start.newPassword)
    requires Undisturbed(w, events)
    ensures var end := Run(w, events);
            client in end.clients
            && (end.clients[client].Done? ==> end.clients[client].outcome == Granted(before.tokenVersion + 1, false))
  {
    CorrectCredentialsSucceed(w, events, client);
  }

  // ----- verification -----

  /** The three answers: usable exactly for an acceptable password on no hash or a safe one, verified exactly on its own hash. */
  lemma VerifyAnswers(password: string, hash: Option<Hash>)
    ensures var answer := Verify(password, hash);
            var usable := hash.Some? ==> Safe(hash.value.params);
            && (answer == Err(Refused) <==> password == "" || |password| > 60)
            && (answer == Err(Unavailable) <==> 1 <= |password| <= 60 && !usable)
            && (answer.Ok? ==>
                  && (answer.value.verified <==> hash.Some? && hash.value.password == password)
                  && (answer.value.needsRehash <==> answer.value.verified && hash.value.params != CURRENT)
                  && (answer.value.usedDummy <==> hash.None?))
  {
  }

  /** A new password that the policy turns down is never hashed: the client is refused before its lock. */
  lemma PolicyDecides(row: Option<Account>, client: Client, input: Input)
    requires client.ChangeHash? || client.ResetHash?
    ensures var (row', next) := ClientStep(row, client, input);
            && row' == row
            && (if input.policyOk
                then (next.ChangeLock? <==> client.ChangeHash?) && (next.ResetLock? <==> client.ResetHash?)
                     && next.newHash.password == client.newPassword && next.newHash.salt == input.salt
                else next == Done(Failed(Refused)))
  {
  }

  /** A granted login always leaves the row with a hash of the current parameters. */
  lemma GrantLeavesCurrentHash(row: Option<Account>, client: Client, input: Input)
    requires ClientSound(client)
    ensures var (row', next) := ClientStep(row, client, input);
            next.Done? && next.outcome.Granted? && !client.Done? ==>
              row'.Some? && row'.value.hash.Some? && row'.value.hash.value.params == CURRENT
              && row'.value == row.value.(hash := row'.value.hash)
  {
    hide Verify;
  }
}
