/**
 What captcha clients get: exactly which submissions are accepted, that a right
 answer in time always is, and exactly which issuances go through and what
 they replace.
 */
module CaptchaRuns {
  import opened Wrappers
  import opened Captcha

  // ----- submissions -----

  /** The submission names the scene, owner and answer the challenge was issued for. */
  predicate Right(submission: Submission, record: Record) {
    submission.scene == record.scene && submission.owner == record.owner && submission.digest == record.digest
  }

  /** The index key of a spent challenge goes with it. */
  ghost predicate Spent(store: Store, id: Id, after: Store) {
    && after.now == store.now && after.challenges == store.challenges - {id}
    && forall slot :: slot in after.pointers <==> slot in store.pointers && store.pointers[slot].id != id
  }

  lemma SubmissionAnswer(w: World, client: ClientId)
    requires Sound(w) && client in w.clients && w.clients[client].Submitting?
    ensures var submission := w.clients[client].submission;
            var w' := Step(w, RunConsume(client));
            && submission.id in w.issued
            && client in w'.clients
            && (w'.clients[client] == Finished(Consumed) <==>
                submission.id in w.store.challenges && Right(submission, w.issued[submission.id].record))
            && (w'.clients[client] != Finished(Consumed) ==> w'.clients[client] == Finished(Invalid))
            && (if submission.id in w.store.challenges then Spent(w.store, submission.id, w'.store) else w'.store == w.store)
            && w'.accepted == if w'.clients[client] == Finished(Consumed) then w.accepted + [Acceptance(submission, w.store.now)]
                              else w.accepted
  {
    hide AcceptedSound;
    var submission := w.clients[client].submission;
    assert submission.id in w.issued && w.issued[submission.id].record == w.clients[client].raw;
    assert RecordAllowed(w.issued[submission.id].record);
  }

  /**
   In every reachable state a client that runs the consume script is accepted
   exactly when the challenge is still stored and it was issued for just this
   scene, owner and answer; either way the challenge is spent, and nothing else.
   */
  lemma AcceptedExactly(w: World, before: seq<Event>, client: ClientId)
    requires Initial(w)
    requires var u := Run(w, before); client in u.clients && u.clients[client].Submitting?
    ensures var u := Run(w, before);
            var submission := u.clients[client].submission;
            var next := Step(u, RunConsume(client));
            && submission.id in u.issued && client in next.clients
            && (next.clients[client] == Finished(Consumed) <==>
                submission.id in u.store.challenges && Right(submission, u.issued[submission.id].record))
            && (next.clients[client] != Finished(Consumed) ==> next.clients[client] == Finished(Invalid))
            && (if submission.id in u.store.challenges then Spent(u.store, submission.id, next.store) else next.store == u.store)
  {
    assert Sound(w);
    RunKeeps(w, before);
    hide Sound, Step;
    SubmissionAnswer(Run(w, before), client);
  }

  // ----- a right answer in time -----

  /** The event consumes the challenge, or replaces it by another issuance of its owner. */
  predicate Takes(w: World, e: Event, id: Id) {
    match e
    case RunConsume(c) => c in w.clients && w.clients[c].Submitting? && w.clients[c].submission.id == id
    case RunIssue(c) =>
      && c in w.clients && w.clients[c].Writing?
      && var spec := w.clients[c].spec;
         spec.previous == Some(id)
         || (spec.previous.None? && spec.owner.Some? && id in w.issued
             && w.issued[id].record.index == Some(Slot(spec.scene, spec.owner.value)))
    case _ => false
  }

  /** Nobody takes the challenge, and the client itself does nothing meanwhile. */
  ghost predicate Untaken(w: World, events: seq<Event>, id: Id, client: ClientId)
    decreases |events|
  {
    events == []
    || (!Takes(w, events[0], id) && ClientOf(events[0]) != Some(client) && Untaken(Step(w, events[0]), events[1..], id, client))
  }

  /** A challenge goes only when it is taken or its time is over. */
  lemma OnlyTaken(w: World, e: Event, id: Id)
    requires Sound(w) && id in w.store.challenges && !Takes(w, e, id)
    requires Step(w, e).store.now <= w.issued[id].at + TTL_MS
    ensures id in Step(w, e).store.challenges && id in Step(w, e).issued && Step(w, e).issued[id] == w.issued[id]
  {
    hide AcceptedSound;
    match e
    case RunIssue(c) =>
      if c in w.clients && w.clients[c].Writing? {
        IssueLeaves(w, c, id);
      }
    case RunConsume(c) =>
      hide IssuedSound, PointersExact;
    case PassTime(ms) =>
      hide ClientsSound, IssuedSound, PointersExact;
    case _ =>
  }

  lemma IssueLeaves(w: World, c: ClientId, id: Id)
    requires StoreSound(w) && ClientsSound(w) && id in w.store.challenges && c in w.clients && w.clients[c].Writing?
    requires !Takes(w, RunIssue(c), id)
    ensures var w' := Step(w, RunIssue(c)); id in w'.store.challenges && id in w'.issued && w'.issued[id] == w.issued[id]
  {
    var Writing(spec, current, attempts) := w.clients[c];
    assert w.issued[id].record == w.store.challenges[id].record;
    assert spec.id != id;
    if spec.owner.Some? && current.Some? && current.value == id {
      var slot := Slot(spec.scene, spec.owner.value);
      assert w.store.PointerOf(slot) == Some(id) ==> w.store.challenges[id].record.index == Some(slot);
    }
  }

  lemma ClockAdvances(w: World, e: Event)
    ensures Step(w, e).store.now >= w.store.now
  {
  }

  lemma {:induction false} ClockRuns(w: World, events: seq<Event>)
    ensures Run(w, events).store.now >= w.store.now
    decreases |events|
  {
    if events != [] {
      ClockAdvances(w, events[0]);
      hide Step;
      ClockRuns(Step(w, events[0]), events[1..]);
    }
  }

  /** An untaken challenge is there until its time is over, and the client where it was. */
  lemma {:induction false} UntakenStays(w: World, events: seq<Event>, id: Id, client: ClientId)
    requires Sound(w) && id in w.store.challenges && Untaken(w, events, id, client) && client in w.clients
    requires Run(w, events).store.now <= w.issued[id].at + TTL_MS
    ensures var end := Run(w, events);
            && Sound(end) && id in end.store.challenges && id in end.issued && end.issued[id] == w.issued[id]
            && client in end.clients && end.clients[client] == w.clients[client]
    decreases |events|
  {
    if events != [] {
      var next := Step(w, events[0]);
      StepKeeps(w, events[0]);
      ClockRuns(next, events[1..]);
      OnlyTaken(w, events[0], id);
      OthersKeepClient(w, events[0], client);
      hide Sound, Step, Takes;
      UntakenStays(next, events[1..], id, client);
    }
  }

  /**
   Whoever submits what a stored challenge was issued for is accepted, if the
   read and the script run within its time to live and nobody takes the
   challenge in between, whatever else the other clients do.
   */
  lemma RightAnswerAccepted(w: World, before: seq<Event>, client: ClientId, submission: Submission, first: seq<Event>,
                            second: seq<Event>)
    requires Initial(w)
    requires var u := Run(w, before);
             && client !in u.clients && submission.id in u.store.challenges && submission.id in u.issued
             && Right(submission, u.issued[submission.id].record)
    requires var begun := Step(Run(w, before), BeginConsume(client, submission));
             var read := Step(Run(begun, first), ReadChallenge(client));
             && Untaken(begun, first, submission.id, client) && Untaken(read, second, submission.id, client)
             && Run(read, second).store.now <= Run(w, before).issued[submission.id].at + TTL_MS
    ensures var begun := Step(Run(w, before), BeginConsume(client, submission));
            var read := Step(Run(begun, first), ReadChallenge(client));
            var end := Step(Run(read, second), RunConsume(client));
            client in end.clients && end.clients[client] == Finished(Consumed)
  {
    var u := Run(w, before);
    assert Sound(w);
    RunKeeps(w, before);
    BeginsFetching(u, client, submission);
    var begun := Step(u, BeginConsume(client, submission));
    var fetched := Run(begun, first);
    var read := Step(fetched, ReadChallenge(client));
    ClockRuns(read, second);
    ClockAdvances(fetched, ReadChallenge(client));
    hide *;
    UntakenStays(begun, first, submission.id, client);
    ReadsItsRecord(fetched, client, submission);
    UntakenStays(read, second, submission.id, client);
    SubmissionAnswer(Run(read, second), client);
  }

  lemma BeginsFetching(u: World, client: ClientId, submission: Submission)
    requires Sound(u) && client !in u.clients && submission.id in u.issued && Right(submission, u.issued[submission.id].record)
    ensures var begun := Step(u, BeginConsume(client, submission));
            && Sound(begun) && begun.store == u.store && begun.issued == u.issued
            && client in begun.clients && begun.clients[client] == Fetching(submission)
  {
    StepKeeps(u, BeginConsume(client, submission));
    assert RecordAllowed(u.issued[submission.id].record);
    hide StoreSound, ClientsSound, AcceptedSound;
  }

  lemma ReadsItsRecord(u: World, client: ClientId, submission: Submission)
    requires Sound(u) && client in u.clients && u.clients[client] == Fetching(submission) && submission.id in u.store.challenges
    ensures var read := Step(u, ReadChallenge(client));
            && Sound(read) && read.store == u.store && read.issued == u.issued
            && client in read.clients && read.clients[client].Submitting? && read.clients[client].submission == submission
  {
    StepKeeps(u, ReadChallenge(client));
    assert RecordAllowed(u.store.challenges[submission.id].record);
    hide ClientsSound, AcceptedSound, PointersExact;
  }

  // ----- issuing -----

  /** The challenge an issuance replaces: the one it names, or else whatever its private index key names. */
  ghost function Replaces(store: Store, spec: Issuance): Option<Id> {
    if spec.previous.Some? then spec.previous
    else if spec.owner.Some? then store.PointerOf(Slot(spec.scene, spec.owner.value))
    else None
  }

  /** The new challenge is stored for its time to live, under its index key if private, and only the replaced one is gone. */
  ghost predicate Placed(store: Store, spec: Issuance, after: Store) {
    && after.now == store.now
    && spec.id in after.challenges && after.challenges[spec.id] == Challenge(spec.record, store.now + TTL_MS)
    && (forall id :: id != spec.id ==>
          (id in after.challenges <==> id in store.challenges && Some(id) != Replaces(store, spec))
          && (id in after.challenges ==> after.challenges[id] == store.challenges[id]))
    && after.pointers == if spec.owner.Some?
                         then store.pointers[Slot(spec.scene, spec.owner.value) := Pointer(spec.id, store.now + TTL_MS)]
                         else store.pointers
  }

  /** A refresh finds its challenge still stored, for the same scene and owner. */
  ghost predicate Refreshable(w: World, spec: Issuance, previous: Id) {
    && previous in w.store.challenges && previous in w.issued
    && w.issued[previous].record.scene == spec.scene && w.issued[previous].record.owner == spec.owner
  }

  lemma IssueAnswer(w: World, client: ClientId)
    requires Sound(w) && client in w.clients && w.clients[client].Writing?
    ensures var Writing(spec, current, attempts) := w.clients[client];
            var w' := Step(w, RunIssue(client));
            && client in w'.clients
            && (w'.clients[client] == Finished(Issued) <==>
                if spec.previous.Some? then Refreshable(w, spec, spec.previous.value)
                else spec.owner.Some? ==> w.store.PointerOf(Slot(spec.scene, spec.owner.value)) == current)
            && (if w'.clients[client] == Finished(Issued) then Placed(w.store, spec, w'.store) else w'.store == w.store)
            && (w'.clients[client] != Finished(Issued) ==>
                  w'.clients[client] == if spec.previous.Some? then Finished(Invalid)
                                        else if attempts <= 1 then Finished(Unavailable) else Reading(spec, attempts - 1))
  {
    var Writing(spec, current, attempts) := w.clients[client];
    assert spec.id !in w.store.challenges;
    if spec.previous.Some? && spec.previous.value in w.store.challenges {
      PreviousIsIndexed(w, spec);
    }
    ScriptAnswer(w.store, spec, current);
    hide IssueScript, Placed, Sound;
  }

  lemma ScriptAnswer(store: Store, spec: Issuance, current: Option<Id>)
    requires spec.id !in store.challenges
    ensures var (after, code) := IssueScript(store, spec, current);
            && (code == Replaced <==>
                if spec.previous.Some? then
                  && spec.previous.value in store.challenges
                  && store.challenges[spec.previous.value].record.scene == spec.scene
                  && store.challenges[spec.previous.value].record.owner == spec.owner
                  && (spec.owner.Some? ==> store.PointerOf(Slot(spec.scene, spec.owner.value)) == spec.previous)
                else spec.owner.Some? ==> store.PointerOf(Slot(spec.scene, spec.owner.value)) == current)
            && (code != Replaced ==> after == store && code == if spec.previous.Some? then NotCurrent else Retry)
            && (code == Replaced ==> Placed(store, spec, after))
  {
    hide Place, Placed;
    PlacedWithout(store, spec);
    assert store.challenges - {} == store.challenges;
  }

  lemma PlacedWithout(store: Store, spec: Issuance)
    requires spec.id !in store.challenges
    ensures Placed(store, spec, Place(store, spec, store.challenges - if Replaces(store, spec).Some? then {Replaces(store, spec).value} else {}))
  {
  }

  lemma PreviousIsIndexed(w: World, spec: Issuance)
    requires StoreSound(w) && IssuedSound(w) && spec.previous.Some? && spec.previous.value in w.store.challenges
    ensures var previous := spec.previous.value;
            && previous in w.issued && w.store.challenges[previous].record == w.issued[previous].record
            && (spec.owner.Some? && Refreshable(w, spec, previous) ==>
                  w.store.PointerOf(Slot(spec.scene, spec.owner.value)) == Some(previous))
  {
    var previous := spec.previous.value;
    assert RecordAllowed(w.issued[previous].record);
  }

  /**
   In every reachable state a refresh goes through exactly when the challenge
   it names is still stored for its scene and owner, a first issuance for a
   public scene always, and one for a private scene exactly when the index key
   has not moved since the client read it; then the new challenge has taken
   the place of the one it replaces, and otherwise nothing has changed.
   */
  lemma IssuedExactly(w: World, before: seq<Event>, client: ClientId)
    requires Initial(w)
    requires var u := Run(w, before); client in u.clients && u.clients[client].Writing?
    ensures var u := Run(w, before);
            var Writing(spec, current, attempts) := u.clients[client];
            var next := Step(u, RunIssue(client));
            && client in next.clients
            && (next.clients[client] == Finished(Issued) <==>
                if spec.previous.Some? then Refreshable(u, spec, spec.previous.value)
                else spec.owner.Some? ==> u.store.PointerOf(Slot(spec.scene, spec.owner.value)) == current)
            && (if next.clients[client] == Finished(Issued) then Placed(u.store, spec, next.store) else next.store == u.store)
            && (next.clients[client] != Finished(Issued) ==>
                  next.clients[client] == if spec.previous.Some? then Finished(Invalid)
                                          else if attempts <= 1 then Finished(Unavailable) else Reading(spec, attempts - 1))
  {
    assert Sound(w);
    RunKeeps(w, before);
    hide Sound, Step, Placed, Refreshable;
    IssueAnswer(Run(w, before), client);
  }

  /** An undisturbed first issuance stores a challenge for which exactly the given answer, scene and owner are right. */
  lemma IssuedForItsAnswer(w: World, before: seq<Event>, client: ClientId, id: Id, scene: Scene, owner: Option<Owner>,
                           answer: string, submission: Submission)
    requires Initial(w) && BindingAllowed(scene, owner) && submission.id == id
    requires var u := Run(w, before); client !in u.clients && id !in u.used
    ensures var begun := Step(Run(w, before), BeginIssue(client, id, scene, owner, None, answer));
            var end := Step(Step(begun, ReadPointer(client)), RunIssue(client));
            && client in begun.clients && begun.clients[client].Reading? && begun.clients[client].attempts == 3
            && client in end.clients && end.clients[client] == Finished(Issued)
            && id in end.store.challenges && id in end.issued && end.issued[id].at == end.store.now == Run(w, before).store.now
            && (Right(submission, end.issued[id].record) <==>
                submission.scene == scene && submission.owner == owner && submission.digest == Digest(id, answer))
  {
    var u := Run(w, before);
    var e := BeginIssue(client, id, scene, owner, None, answer);
    assert Sound(w);
    RunKeeps(w, before);
    StepKeeps(u, e);
    StepKeeps(Step(u, e), ReadPointer(client));
    FirstIssuance(u, client, id, scene, owner, answer);
    hide Sound, IssueScript;
    IssueAnswer(Step(Step(u, e), ReadPointer(client)), client);
  }

  lemma FirstIssuance(u: World, client: ClientId, id: Id, scene: Scene, owner: Option<Owner>, answer: string)
    requires BindingAllowed(scene, owner) && client !in u.clients && id !in u.used
    ensures var read := Step(Step(u, BeginIssue(client, id, scene, owner, None, answer)), ReadPointer(client));
            var end := Step(read, RunIssue(client));
            && client in read.clients && read.clients[client].Writing? && read.clients[client].spec.previous == None
            && read.clients[client].spec.id == id
            && (owner.Some? ==> read.store.PointerOf(Slot(scene, owner.value)) == read.clients[client].current)
            && read.clients[client].spec.owner == owner && read.clients[client].spec.scene == scene && read.store == u.store
            && id in end.issued && end.issued[id].at == u.store.now && end.store.now == u.store.now
            && end.issued[id].record.scene == scene && end.issued[id].record.owner == owner
            && end.issued[id].record.digest == Digest(id, answer)
  {
  }
}
