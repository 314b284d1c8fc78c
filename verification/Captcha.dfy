/**
 Captcha challenges in the shared store.  Issuing and consuming each read a key
 first and then run an atomic script, and any number of clients interleave
 between the two.
 */
module Captcha {
  import opened Wrappers

  type Id = nat
  type Owner = nat
  type ClientId = nat

  datatype Scene = LoginScene | RegisterScene | AdminCreateScene | AdminResetScene | SelfChangeScene

  predicate Private(scene: Scene) {
    scene.AdminCreateScene? || scene.AdminResetScene? || scene.SelfChangeScene?
  }

  // The keyed digest of an id and an upper-cased answer.
  datatype Digest = Digest(id: Id, answer: string)

  // The pointer key of a private scene and its owner.
  datatype Slot = Slot(scene: Scene, owner: Owner)

  datatype Record = Record(scene: Scene, owner: Option<Owner>, digest: Digest, index: Option<Slot>)

  datatype Challenge = Challenge(record: Record, deadline: nat)
  datatype Pointer = Pointer(id: Id, deadline: nat)

  const TTL_MS: nat := 300_000
  const ISSUE_ATTEMPTS: nat := 3

  /** The live keys and the store's clock in milliseconds. */
  datatype Store = Store(now: nat, challenges: map<Id, Challenge>, pointers: map<Slot, Pointer>) {
    function PointerOf(slot: Slot): Option<Id> {
      if slot in pointers then Some(pointers[slot].id) else None
    }
  }

  datatype IssueCode = Replaced | NotCurrent | Retry
  datatype ConsumeCode = Accepted | Rejected

  predicate BindingAllowed(scene: Scene, owner: Option<Owner>) {
    Private(scene) <==> owner.Some?
  }

  function IndexOf(scene: Scene, owner: Option<Owner>): Option<Slot> {
    if owner.Some? then Some(Slot(scene, owner.value)) else None
  }

  // ----- the two scripts as functions -----

  /** What the issue script may replace: a named previous challenge, or whatever the index key named when it was read. */
  datatype Issuance = Issuance(id: Id, scene: Scene, owner: Option<Owner>, previous: Option<Id>, record: Record)

  function Place(store: Store, spec: Issuance, without: map<Id, Challenge>): Store {
    var deadline := store.now + TTL_MS;
    store.(challenges := without[spec.id := Challenge(spec.record, deadline)],
           pointers := if spec.owner.Some?
                       then store.pointers[Slot(spec.scene, spec.owner.value) := Pointer(spec.id, deadline)]
                       else store.pointers)
  }

  function IssueScript(store: Store, spec: Issuance, current: Option<Id>): (Store, IssueCode) {
    if spec.previous.None? && spec.owner.Some? && store.PointerOf(Slot(spec.scene, spec.owner.value)) != current then
      (store, Retry)
    else if spec.previous.Some? then
      var previous := spec.previous.value;
      if previous !in store.challenges then (store, NotCurrent)
      else if store.challenges[previous].record.scene != spec.scene || store.challenges[previous].record.owner != spec.owner then
        (store, NotCurrent)
      else if spec.owner.Some? && store.PointerOf(Slot(spec.scene, spec.owner.value)) != Some(previous) then
        (store, NotCurrent)
      else (Place(store, spec, store.challenges - {previous}), Replaced)
    else if spec.owner.Some? && current.Some? then
      (Place(store, spec, store.challenges - {current.value}), Replaced)
    else (Place(store, spec, store.challenges), Replaced)
  }

  datatype Submission = Submission(id: Id, scene: Scene, owner: Option<Owner>, digest: Digest)

  /** `raw` is the record the client read before. */
  function ConsumeScript(store: Store, submission: Submission, raw: Record): (Store, ConsumeCode) {
    var id := submission.id;
    if id !in store.challenges || store.challenges[id].record != raw then (store, Rejected)
    else
      var pointers := if raw.index.Some? && store.PointerOf(raw.index.value) == Some(id) then store.pointers - {raw.index.value}
                      else store.pointers;
      (store.(challenges := store.challenges - {id}, pointers := pointers),
       if raw.scene == submission.scene && raw.owner == submission.owner && raw.digest == submission.digest
       then Accepted else Rejected)
  }

  /** Keys past their deadline disappear. */
  function Later(store: Store, ms: nat): Store {
    var now := store.now + ms;
    Store(now,
          map id | id in store.challenges && now <= store.challenges[id].deadline :: store.challenges[id],
          map slot | slot in store.pointers && now <= store.pointers[slot].deadline :: store.pointers[slot])
  }

  // ----- the two scripts in place -----

  class CaptchaStore {
    var now: nat
    var challenges: map<Id, Challenge>
    var pointers: map<Slot, Pointer>

    function Contents(): Store
      reads this
    {
      Store(now, challenges, pointers)
    }

    constructor ()
      ensures Contents() == Store(0, map[], map[])
    {
      now, challenges, pointers := 0, map[], map[];
    }

    method Issue(spec: Issuance, current: Option<Id>) returns (code: IssueCode)
      modifies this`challenges, this`pointers
      ensures (Contents(), code) == IssueScript(old(Contents()), spec, current)
    {
      if spec.previous.None? && spec.owner.Some? {
        if Contents().PointerOf(Slot(spec.scene, spec.owner.value)) != current {
          return Retry;
        }
      }
      if spec.previous.Some? {
        var previous := spec.previous.value;
        if previous !in challenges {
          return NotCurrent;
        }
        var record := challenges[previous].record;
        if record.scene != spec.scene || record.owner != spec.owner {
          return NotCurrent;
        }
        if spec.owner.Some? && Contents().PointerOf(Slot(spec.scene, spec.owner.value)) != Some(previous) {
          return NotCurrent;
        }
        challenges := challenges - {previous};
      } else if spec.owner.Some? {
        if current.Some? {
          challenges := challenges - {current.value};
        }
      }
      challenges := challenges[spec.id := Challenge(spec.record, now + TTL_MS)];
      if spec.owner.Some? {
        pointers := pointers[Slot(spec.scene, spec.owner.value) := Pointer(spec.id, now + TTL_MS)];
      }
      return Replaced;
    }

    method Consume(submission: Submission, raw: Record) returns (code: ConsumeCode)
      modifies this`challenges, this`pointers
      ensures (Contents(), code) == ConsumeScript(old(Contents()), submission, raw)
    {
      var id := submission.id;
      if id !in challenges {
        return Rejected;
      }
      var record := challenges[id].record;
      if record != raw {
        return Rejected;
      }
      challenges := challenges - {id};
      if record.index.Some? {
        if Contents().PointerOf(record.index.value) == Some(id) {
          pointers := pointers - {record.index.value};
        }
      }
      if record.scene == submission.scene && record.owner == submission.owner && record.digest == submission.digest {
        return Accepted;
      }
      return Rejected;
    }

    method PassTime(ms: nat)
      modifies this
      ensures Contents() == Later(old(Contents()), ms)
    {
      now := now + ms;
      challenges := map id | id in challenges && now <= challenges[id].deadline :: challenges[id];
      pointers := map slot | slot in pointers && now <= pointers[slot].deadline :: pointers[slot];
    }
  }

  // ----- clients -----

  datatype Outcome = Issued | Consumed | Invalid | Unavailable

  datatype Client =
    | Reading(spec: Issuance, attempts: nat)                        // about to read the index key
    | Writing(spec: Issuance, current: Option<Id>, attempts: nat)   // about to run the issue script
    | Fetching(submission: Submission)                              // about to read the challenge
    | Submitting(submission: Submission, raw: Record)               // about to run the consume script
    | Finished(outcome: Outcome)

  datatype Origin = Origin(record: Record, at: nat)
  datatype Acceptance = Acceptance(submission: Submission, at: nat)

  /** The store, the clients, and a history: ids handed out, issued, spent, and the accepted submissions in order. */
  datatype World = World(
    store: Store,
    clients: map<ClientId, Client>,
    used: set<Id>,
    issued: map<Id, Origin>,
    spent: set<Id>,
    accepted: seq<Acceptance>
  )

  datatype Event =
    | BeginIssue(client: ClientId, id: Id, scene: Scene, owner: Option<Owner>, previous: Option<Id>, answer: string)
    | ReadPointer(client: ClientId)
    | RunIssue(client: ClientId)
    | BeginConsume(client: ClientId, submission: Submission)
    | ReadChallenge(client: ClientId)
    | RunConsume(client: ClientId)
    | PassTime(ms: nat)

  /** A new client draws a fresh id; a scene that does not fit the owner is refused at once. */
  function AfterBeginIssue(w: World, client: ClientId, id: Id, scene: Scene, owner: Option<Owner>, previous: Option<Id>,
                           answer: string): World {
    if client in w.clients || id in w.used then w
    else if !BindingAllowed(scene, owner) then w.(clients := w.clients[client := Finished(Invalid)])
    else
      var record := Record(scene, owner, Digest(id, answer), IndexOf(scene, owner));
      w.(clients := w.clients[client := Reading(Issuance(id, scene, owner, previous, record), ISSUE_ATTEMPTS)],
         used := w.used + {id})
  }

  function AfterReadPointer(w: World, client: ClientId): World {
    if client !in w.clients || !w.clients[client].Reading? then w
    else
      var Reading(spec, attempts) := w.clients[client];
      var current := if spec.owner.Some? && spec.previous.None?
                     then w.store.PointerOf(Slot(spec.scene, spec.owner.value)) else None;
      w.(clients := w.clients[client := Writing(spec, current, attempts)])
  }

  function AfterRunIssue(w: World, client: ClientId): World {
    if client !in w.clients || !w.clients[client].Writing? then w
    else
      var Writing(spec, current, attempts) := w.clients[client];
      var (store, code) := IssueScript(w.store, spec, current);
      match code
      case Retry =>
        w.(store := store,
           clients := w.clients[client := if attempts <= 1 then Finished(Unavailable) else Reading(spec, attempts - 1)])
      case NotCurrent => w.(store := store, clients := w.clients[client := Finished(Invalid)])
      case Replaced =>
        w.(store := store, clients := w.clients[client := Finished(Issued)],
           issued := w.issued[spec.id := Origin(spec.record, w.store.now)])
  }

  function AfterBeginConsume(w: World, client: ClientId, submission: Submission): World {
    if client in w.clients then w
    else if !BindingAllowed(submission.scene, submission.owner) then w.(clients := w.clients[client := Finished(Invalid)])
    else w.(clients := w.clients[client := Fetching(submission)])
  }

  /** The client's own checks of a stored record. */
  predicate RecordAllowed(record: Record) {
    BindingAllowed(record.scene, record.owner) && record.index == IndexOf(record.scene, record.owner)
  }

  function AfterReadChallenge(w: World, client: ClientId): World {
    if client !in w.clients || !w.clients[client].Fetching? then w
    else
      var submission := w.clients[client].submission;
      if submission.id !in w.store.challenges then w.(clients := w.clients[client := Finished(Invalid)])
      else
        var raw := w.store.challenges[submission.id].record;
        w.(clients := w.clients[client := if RecordAllowed(raw) then Submitting(submission, raw) else Finished(Unavailable)])
  }

  function AfterRunConsume(w: World, client: ClientId): World {
    if client !in w.clients || !w.clients[client].Submitting? then w
    else
      var Submitting(submission, raw) := w.clients[client];
      var (store, code) := ConsumeScript(w.store, submission, raw);
      w.(store := store,
         clients := w.clients[client := Finished(if code == Accepted then Consumed else Invalid)],
         spent := w.spent + {submission.id},
         accepted := if code == Accepted then w.accepted + [Acceptance(submission, w.store.now)] else w.accepted)
  }

  function Step(w: World, e: Event): World {
    match e
    case BeginIssue(client, id, scene, owner, previous, answer) =>
      AfterBeginIssue(w, client, id, scene, owner, previous, answer)
    case ReadPointer(client) => AfterReadPointer(w, client)
    case RunIssue(client) => AfterRunIssue(w, client)
    case BeginConsume(client, submission) => AfterBeginConsume(w, client, submission)
    case ReadChallenge(client) => AfterReadChallenge(w, client)
    case RunConsume(client) => AfterRunConsume(w, client)
    case PassTime(ms) => w.(store := Later(w.store, ms))
  }

  function Run(w: World, events: seq<Event>): World
    decreases |events|
  {
    if events == [] then w else Run(Step(w, events[0]), events[1..])
  }

  // ----- the invariant -----

  /** A private scene and owner have at most one live challenge, and its index key names exactly that one. */
  ghost predicate PointersExact(store: Store) {
    && (forall slot :: slot in store.pointers ==>
          var p := store.pointers[slot];
          p.id in store.challenges && store.challenges[p.id].deadline == p.deadline
          && store.challenges[p.id].record.index == Some(slot))
    && (forall id :: id in store.challenges && store.challenges[id].record.index.Some? ==>
          store.PointerOf(store.challenges[id].record.index.value) == Some(id))
  }

  ghost predicate StoreSound(w: World) {
    && PointersExact(w.store)
    && (forall id :: id in w.store.challenges ==>
          && id in w.issued && id !in w.spent && w.store.challenges[id].record == w.issued[id].record
          && w.store.challenges[id].deadline == w.issued[id].at + TTL_MS && w.store.now <= w.store.challenges[id].deadline)
  }

  ghost predicate IssuedSound(w: World) {
    && (forall id :: id in w.issued ==> id in w.used && RecordAllowed(w.issued[id].record))
    && (forall id :: id in w.spent ==> id in w.issued)
  }

  predicate Pending(client: Client) {
    client.Reading? || client.Writing?
  }

  /** A pending issuance owns its id, which is not issued yet. */
  ghost predicate ClientsSound(w: World) {
    && (forall c :: c in w.clients && Pending(w.clients[c]) ==>
          var spec := w.clients[c].spec;
          spec.id in w.used && spec.id !in w.issued && RecordAllowed(spec.record)
          && spec.record.scene == spec.scene && spec.record.owner == spec.owner)
    && (forall c, d :: c in w.clients && d in w.clients && Pending(w.clients[c]) && Pending(w.clients[d]) && c != d ==>
          w.clients[c].spec.id != w.clients[d].spec.id)
    && (forall c :: c in w.clients && w.clients[c].Submitting? ==>
          var id := w.clients[c].submission.id; id in w.issued && w.issued[id].record == w.clients[c].raw)
  }

  /** Acceptances are of distinct spent challenges, each matching what was issued, within its time to live. */
  ghost predicate AcceptedSound(w: World) {
    && (forall i :: 0 <= i < |w.accepted| ==>
          var a := w.accepted[i];
          a.submission.id in w.spent && a.submission.id in w.issued && Matches(a, w.issued[a.submission.id]))
    && (forall i, j :: 0 <= i < j < |w.accepted| ==> w.accepted[i].submission.id != w.accepted[j].submission.id)
  }

  predicate Matches(a: Acceptance, origin: Origin) {
    && a.submission.scene == origin.record.scene && a.submission.owner == origin.record.owner
    && a.submission.digest == origin.record.digest && origin.at <= a.at <= origin.at + TTL_MS
  }

  ghost predicate Sound(w: World) {
    && StoreSound(w) && IssuedSound(w) && ClientsSound(w) && AcceptedSound(w)
    && forall id :: id in w.issued ==> w.issued[id].at <= w.store.now
  }

  // ----- every step keeps it -----

  /** Only the clients changed. */
  lemma ClientsOnlyKeeps(w: World, w': World)
    requires Sound(w) && w' == w.(clients := w'.clients, used := w'.used) && w.used <= w'.used && ClientsSound(w')
    ensures Sound(w')
  {
  }

  /** A placed challenge takes over the index key of its slot, and the challenge the index key named is gone. */
  lemma IssuePointers(store: Store, spec: Issuance, current: Option<Id>)
    requires PointersExact(store) && spec.id !in store.challenges
    requires spec.record.index == IndexOf(spec.scene, spec.owner)
    requires forall id :: id in store.challenges ==> RecordAllowed(store.challenges[id].record)
    requires IssueScript(store, spec, current).1 == Replaced
    ensures PointersExact(IssueScript(store, spec, current).0)
  {
    var gone := if spec.previous.Some? then {spec.previous.value}
                else if spec.owner.Some? && current.Some? then {current.value} else {};
    assert store.challenges - {} == store.challenges;
    assert IssueScript(store, spec, current).0 == Place(store, spec, store.challenges - gone);
    if spec.owner.Some? {
      PlacePrivate(store, spec, gone);
    } else {
      PlacePublic(store, spec, gone);
    }
  }

  lemma PlacePrivate(store: Store, spec: Issuance, gone: set<Id>)
    requires PointersExact(store) && spec.id !in store.challenges && spec.owner.Some?
    requires var slot := Slot(spec.scene, spec.owner.value);
             spec.record.index == Some(slot) && forall id :: id in gone <==> Some(id) == store.PointerOf(slot)
    ensures PointersExact(Place(store, spec, store.challenges - gone))
  {
  }

  lemma PlacePublic(store: Store, spec: Issuance, gone: set<Id>)
    requires PointersExact(store) && spec.id !in store.challenges && spec.owner.None? && spec.record.index.None?
    requires forall id :: id in gone && id in store.challenges ==> store.challenges[id].record.index.None?
    ensures PointersExact(Place(store, spec, store.challenges - gone))
  {
  }

  /** Every challenge the issue script leaves was there before, except the one it places. */
  lemma IssueChallenges(store: Store, spec: Issuance, current: Option<Id>)
    ensures var (store', code) := IssueScript(store, spec, current);
            && store'.now == store.now && (code != Replaced ==> store' == store)
            && (code == Replaced ==> spec.id in store'.challenges
                                     && store'.challenges[spec.id] == Challenge(spec.record, store.now + TTL_MS))
            && forall id :: id in store'.challenges && id != spec.id ==>
                 id in store.challenges && store'.challenges[id] == store.challenges[id]
  {
  }

  lemma ReplacedKeeps(w: World, client: ClientId)
    requires Sound(w) && client in w.clients && w.clients[client].Writing?
    requires IssueScript(w.store, w.clients[client].spec, w.clients[client].current).1 == Replaced
    ensures Sound(AfterRunIssue(w, client))
  {
    hide AcceptedSound, PointersExact, IssueScript;
    var w' := AfterRunIssue(w, client);
    var spec := w.clients[client].spec;
    IssueChallenges(w.store, spec, w.clients[client].current);
    IssuePointers(w.store, spec, w.clients[client].current);
    hide StoreSound, ClientsSound, IssuedSound;
    IssuedKeepsStore(w, w', spec);
    IssuedKeepsClients(w, w', client);
    IssuedKeepsAccepted(w, w', spec.id);
  }

  lemma RunIssueKeeps(w: World, client: ClientId)
    requires Sound(w)
    ensures Sound(AfterRunIssue(w, client))
  {
    var w' := AfterRunIssue(w, client);
    if client in w.clients && w.clients[client].Writing? {
      var Writing(spec, current, attempts) := w.clients[client];
      var (store, code) := IssueScript(w.store, spec, current);
      IssueChallenges(w.store, spec, current);
      if code == Replaced {
        ReplacedKeeps(w, client);
      } else {
        hide IssueScript, StoreSound, IssuedSound, AcceptedSound, PointersExact;
        assert ClientsSound(w');
        ClientsOnlyKeeps(w, w');
      }
    }
  }

  lemma IssuedKeepsStore(w: World, w': World, spec: Issuance)
    requires StoreSound(w) && IssuedSound(w) && w'.spent == w.spent && w'.used == w.used
    requires spec.id in w.used && spec.id !in w.issued && RecordAllowed(spec.record)
    requires w'.issued == w.issued[spec.id := Origin(spec.record, w.store.now)]
    requires w'.store.now == w.store.now && PointersExact(w'.store)
    requires spec.id in w'.store.challenges && w'.store.challenges[spec.id] == Challenge(spec.record, w.store.now + TTL_MS)
    requires forall id :: id in w'.store.challenges && id != spec.id ==>
               id in w.store.challenges && w'.store.challenges[id] == w.store.challenges[id]
    ensures StoreSound(w') && IssuedSound(w')
  {
    hide PointersExact;
  }

  lemma IssuedKeepsClients(w: World, w': World, client: ClientId)
    requires ClientsSound(w) && client in w.clients && w.clients[client].Writing? && w'.used == w.used
    requires var spec := w.clients[client].spec; w'.issued == w.issued[spec.id := Origin(spec.record, w.store.now)]
    requires w'.clients == w.clients[client := Finished(Issued)]
    ensures ClientsSound(w')
  {
  }

  lemma IssuedKeepsAccepted(w: World, w': World, id: Id)
    requires AcceptedSound(w) && w'.accepted == w.accepted && w'.spent == w.spent
    requires id !in w.issued && id in w'.issued && w'.issued == w.issued[id := w'.issued[id]]
    ensures AcceptedSound(w')
  {
  }

  // ----- consuming -----

  lemma ConsumePointers(store: Store, submission: Submission, raw: Record)
    requires PointersExact(store)
    ensures PointersExact(ConsumeScript(store, submission, raw).0)
  {
  }

  lemma ConsumeChallenges(store: Store, submission: Submission, raw: Record)
    ensures var (store', code) := ConsumeScript(store, submission, raw);
            && store'.now == store.now
            && (code == Accepted ==> submission.id in store.challenges && store.challenges[submission.id].record == raw
                                     && raw.scene == submission.scene && raw.owner == submission.owner
                                     && raw.digest == submission.digest)
            && (submission.id in store'.challenges ==> store.challenges[submission.id].record != raw)
            && forall id :: id in store'.challenges ==> id in store.challenges && store'.challenges[id] == store.challenges[id]
  {
  }

  lemma RunConsumeKeeps(w: World, client: ClientId)
    requires Sound(w)
    ensures Sound(AfterRunConsume(w, client))
  {
    var w' := AfterRunConsume(w, client);
    if client in w.clients && w.clients[client].Submitting? {
      var Submitting(submission, raw) := w.clients[client];
      ConsumePointers(w.store, submission, raw);
      ConsumeChallenges(w.store, submission, raw);
      hide ConsumeScript, PointersExact;
      assert ClientsSound(w');
      hide ClientsSound;
      SubmissionKeepsAccepted(w, w', submission, raw);
      hide AcceptedSound;
    }
  }

  lemma SubmissionKeepsAccepted(w: World, w': World, submission: Submission, raw: Record)
    requires StoreSound(w) && AcceptedSound(w) && w'.issued == w.issued && w'.spent == w.spent + {submission.id}
    requires w'.accepted == w.accepted || w'.accepted == w.accepted + [Acceptance(submission, w.store.now)]
    requires |w'.accepted| > |w.accepted| ==>
               submission.id in w.store.challenges && w.store.challenges[submission.id].record == raw
               && raw.scene == submission.scene && raw.owner == submission.owner && raw.digest == submission.digest
               && w.issued[submission.id].at <= w.store.now
    ensures AcceptedSound(w')
  {
    hide PointersExact;
  }

  lemma BeginIssueKeeps(w: World, client: ClientId, id: Id, scene: Scene, owner: Option<Owner>, previous: Option<Id>,
                        answer: string)
    requires Sound(w)
    ensures Sound(AfterBeginIssue(w, client, id, scene, owner, previous, answer))
  {
    var w' := AfterBeginIssue(w, client, id, scene, owner, previous, answer);
    assert ClientsSound(w');
    ClientsOnlyKeeps(w, w');
  }

  lemma OtherClientStepsKeep(w: World, e: Event)
    requires Sound(w) && (e.ReadPointer? || e.BeginConsume? || e.ReadChallenge?)
    ensures Sound(Step(w, e))
  {
    var w' := Step(w, e);
    hide AcceptedSound, PointersExact;
    match e {
      case ReadPointer(_) => assert ClientsSound(w');
      case BeginConsume(_, _) => assert ClientsSound(w');
      case ReadChallenge(_) => assert ClientsSound(w');
    }
    hide ClientsSound, StoreSound, IssuedSound;
    ClientsOnlyKeeps(w, w');
  }

  /** A pointer and its challenge share one deadline, so they expire together. */
  lemma PassTimeKeeps(w: World, ms: nat)
    requires Sound(w)
    ensures Sound(w.(store := Later(w.store, ms)))
  {
  }

  lemma StepKeeps(w: World, e: Event)
    requires Sound(w)
    ensures Sound(Step(w, e))
  {
    hide Sound;
    match e
    case BeginIssue(client, id, scene, owner, previous, answer) =>
      BeginIssueKeeps(w, client, id, scene, owner, previous, answer);
    case RunIssue(client) => RunIssueKeeps(w, client);
    case RunConsume(client) => RunConsumeKeeps(w, client);
    case PassTime(ms) => PassTimeKeeps(w, ms);
    case ReadPointer(_) => OtherClientStepsKeep(w, e);
    case BeginConsume(_, _) => OtherClientStepsKeep(w, e);
    case ReadChallenge(_) => OtherClientStepsKeep(w, e);
  }

  lemma {:induction false} RunKeeps(w: World, events: seq<Event>)
    requires Sound(w)
    ensures Sound(Run(w, events))
    decreases |events|
  {
    if events != [] {
      StepKeeps(w, events[0]);
      hide Sound, Step;
      RunKeeps(Step(w, events[0]), events[1..]);
    }
  }

  // ----- what follows for every run -----

  ghost predicate Initial(w: World) {
    w == World(Store(w.store.now, map[], map[]), map[], {}, map[], {}, [])
  }

  /** Every reachable state: one live challenge for a private scene and owner, and its index key names exactly it. */
  lemma OnePrivateChallenge(w: World, events: seq<Event>, slot: Slot, id: Id)
    requires Initial(w)
    ensures var store := Run(w, events).store;
            (id in store.challenges && store.challenges[id].record.index == Some(slot)) <==> store.PointerOf(slot) == Some(id)
    ensures var store := Run(w, events).store;
            slot in store.pointers ==> store.pointers[slot].id in store.challenges
                                       && store.challenges[store.pointers[slot].id].deadline == store.pointers[slot].deadline
  {
    assert Sound(w);
    RunKeeps(w, events);
  }

  /** A challenge is accepted at most once, by the scene, owner and answer it was issued for, within its time to live. */
  lemma AcceptedOnce(w: World, events: seq<Event>)
    requires Initial(w)
    ensures AcceptedSound(Run(w, events))
  {
    assert Sound(w);
    RunKeeps(w, events);
  }

  lemma SpentStep(w: World, e: Event, id: Id)
    requires id in w.spent
    ensures id in Step(w, e).spent
  {
    hide IssueScript, ConsumeScript, Later;
  }

  lemma {:induction false} SpentStays(w: World, events: seq<Event>, id: Id)
    requires Sound(w) && id in w.spent
    ensures id in Run(w, events).spent && id !in Run(w, events).store.challenges
    decreases |events|
  {
    if events != [] {
      StepKeeps(w, events[0]);
      SpentStep(w, events[0], id);
      hide Sound, Step;
      SpentStays(Step(w, events[0]), events[1..], id);
    }
  }

  /** A submission that reaches the consume script ends its challenge for good, whatever the answer was. */
  lemma SubmissionSpends(w: World, before: seq<Event>, client: ClientId, after: seq<Event>)
    requires Initial(w)
    requires var u := Run(w, before); client in u.clients && u.clients[client].Submitting?
    ensures var u := Run(w, before);
            var end := Run(Step(u, RunConsume(client)), after);
            u.clients[client].submission.id !in end.store.challenges
  {
    assert Sound(w);
    RunKeeps(w, before);
    var u := Run(w, before);
    StepKeeps(u, RunConsume(client));
    SpentStays(Step(u, RunConsume(client)), after, u.clients[client].submission.id);
  }

  /** The clients' shape checks never fail on a stored record. */
  lemma StoredRecordsAllowed(w: World, events: seq<Event>, id: Id)
    requires Initial(w) && id in Run(w, events).store.challenges
    ensures RecordAllowed(Run(w, events).store.challenges[id].record)
  {
    assert Sound(w);
    RunKeeps(w, events);
  }

  function ClientOf(e: Event): Option<ClientId> {
    match e
    case BeginIssue(client, _, _, _, _, _) => Some(client)
    case ReadPointer(client) => Some(client)
    case RunIssue(client) => Some(client)
    case BeginConsume(client, _) => Some(client)
    case ReadChallenge(client) => Some(client)
    case RunConsume(client) => Some(client)
    case PassTime(_) => None
  }

  lemma OthersKeepClient(w: World, e: Event, client: ClientId)
    requires client in w.clients && ClientOf(e) != Some(client)
    ensures client in Step(w, e).clients && Step(w, e).clients[client] == w.clients[client]
  {
    hide IssueScript, ConsumeScript, Later;
  }

  lemma {:induction false} OthersRunKeepsClient(w: World, events: seq<Event>, client: ClientId)
    requires client in w.clients && forall i :: 0 <= i < |events| ==> ClientOf(events[i]) != Some(client)
    ensures client in Run(w, events).clients && Run(w, events).clients[client] == w.clients[client]
    decreases |events|
  {
    if events != [] {
      OthersKeepClient(w, events[0], client);
      hide Step;
      OthersRunKeepsClient(Step(w, events[0]), events[1..], client);
    }
  }

  /**
   Whatever the other clients do between a client's read of the index key and its issue
   script: the script asks for a retry exactly when the index key has moved since
   the read, and neither a retry nor a refusal changes the store.
   */
  lemma RetryMeansMoved(w: World, client: ClientId, between: seq<Event>)
    requires client in w.clients && w.clients[client].Reading?
    requires w.clients[client].spec.previous.None? && w.clients[client].spec.owner.Some?
    requires forall i :: 0 <= i < |between| ==> ClientOf(between[i]) != Some(client)
    ensures var spec := w.clients[client].spec; var slot := Slot(spec.scene, spec.owner.value);
            var u := Run(Step(w, ReadPointer(client)), between);
            client in u.clients && u.clients[client].Writing?
            && var (store, code) := IssueScript(u.store, spec, u.clients[client].current);
               && (code == Retry <==> u.store.PointerOf(slot) != w.store.PointerOf(slot))
               && (code != Replaced ==> Step(u, RunIssue(client)).store == u.store)
  {
    OthersRunKeepsClient(Step(w, ReadPointer(client)), between, client);
  }
}
