/**
 Native password work bounded by a counting semaphore.  A caller awaits its
 worker task behind a shield; a cancellation reaches it at an await, and from
 then on it leaves only through the test that the worker is done.
 */
module BoundedWork {
  type CallerId = nat

  // The native thread, and the task wrapped around it, which finishes a little later.
  datatype Work = Queued | Running | Returned(succeeded: bool) | TaskDone(succeeded: bool)

  // The future behind the shield: it mirrors the worker task, or is cancelled without touching it.
  datatype Shield = Pending | Resolved(succeeded: bool) | Withdrawn

  datatype Outcome = ReturnedResult | RaisedError | CancelledOut

  // Where a caller that holds a slot stands: the first await, the loop's test, or the await inside the loop.
  datatype Place = FirstAwait | LoopTest | LoopAwait

  datatype Caller =
    | Waiting // for a slot
    | GaveUp  // cancelled before it had one
    | Holding(work: Work, place: Place, shield: Shield, mustCancel: bool, cancelled: bool)
    | Left(work: Work, outcome: Outcome, cancelled: bool)

  /** `released` counts each caller's releases; `cancelled` remembers that a cancellation hit a holder. */
  datatype Pool = Pool(bound: nat, free: nat, callers: map<CallerId, Caller>, released: multiset<CallerId>)

  datatype Event =
    | Arrive(caller: CallerId)
    | Acquire(caller: CallerId)
    | ThreadStarts(caller: CallerId)
    | ThreadReturns(caller: CallerId, succeeded: bool)
    | TaskFinishes(caller: CallerId)
    | ShieldResolves(caller: CallerId)
    | Cancel(caller: CallerId)
    | Resume(caller: CallerId)
    | Test(caller: CallerId)

  function StateOf(p: Pool, c: CallerId): Caller {
    if c in p.callers then p.callers[c] else GaveUp
  }

  function Set(p: Pool, c: CallerId, state: Caller): Pool {
    p.(callers := p.callers[c := state])
  }

  /** Leaving the `async with` block gives the slot back. */
  function Leave(p: Pool, c: CallerId, state: Caller, outcome: Outcome): Pool
    requires state.Holding?
  {
    Set(p, c, Left(state.work, outcome, state.cancelled)).(free := p.free + 1, released := p.released + multiset{c})
  }

  /** What an await gives when it is over: the worker's result, or a cancellation. */
  datatype Answer = NotYet | Value | Error | Cancellation

  function AnswerOf(state: Caller): Answer
    requires state.Holding?
  {
    if state.shield.Pending? then NotYet
    else if state.shield.Withdrawn? || state.mustCancel then Cancellation
    else if state.shield.succeeded then Value
    else Error
  }

  /** A cancellation withdraws a pending shield; a shield already resolved is overruled when the caller resumes. */
  function AfterCancel(state: Caller): Caller
    requires state.Holding? && state.place != LoopTest
  {
    Holding(state.work, state.place, if state.shield.Pending? then Withdrawn else state.shield,
            state.mustCancel || !state.shield.Pending?, true)
  }

  /** The caller's own code from the end of an await to the loop test or out of the block. */
  function AfterResume(p: Pool, c: CallerId, state: Caller): Pool
    requires state.Holding? && state.place != LoopTest
  {
    var test := Holding(state.work, LoopTest, Pending, false, state.cancelled);
    match AnswerOf(state)
    case NotYet => p
    case Cancellation => Set(p, c, test)
    case Value => if state.place == FirstAwait then Leave(p, c, state, ReturnedResult) else Set(p, c, test)
    case Error => Leave(p, c, state, if state.place == FirstAwait then RaisedError else CancelledOut)
  }

  /** `while not worker.done()`: leave with the cancellation, or await behind a new shield. */
  function AfterTest(p: Pool, c: CallerId, state: Caller): Pool
    requires state.Holding? && state.place == LoopTest
  {
    if state.work.TaskDone? then Leave(p, c, state, CancelledOut)
    else Set(p, c, Holding(state.work, LoopAwait, Pending, false, state.cancelled))
  }

  function WithWork(state: Caller, work: Work): Caller
    requires state.Holding?
  {
    Holding(work, state.place, state.shield, state.mustCancel, state.cancelled)
  }

  function Step(p: Pool, e: Event): Pool {
    var c := e.caller;
    var state := StateOf(p, c);
    match e
    case Arrive(_) => if c in p.callers then p else Set(p, c, Waiting)
    case Acquire(_) =>
      if state.Waiting? && p.free > 0
      then Set(p, c, Holding(Queued, FirstAwait, Pending, false, false)).(free := p.free - 1) else p
    case ThreadStarts(_) => if state.Holding? && state.work.Queued? then Set(p, c, WithWork(state, Running)) else p
    case ThreadReturns(_, succeeded) =>
      if state.Holding? && state.work.Running? then Set(p, c, WithWork(state, Returned(succeeded))) else p
    case TaskFinishes(_) =>
      if state.Holding? && state.work.Returned? then Set(p, c, WithWork(state, TaskDone(state.work.succeeded))) else p
    case ShieldResolves(_) =>
      if state.Holding? && state.work.TaskDone? && state.shield.Pending? && state.place != LoopTest
      then Set(p, c, Holding(state.work, state.place, Resolved(state.work.succeeded), state.mustCancel, state.cancelled)) else p
    case Cancel(_) =>
      if state.Waiting? then Set(p, c, GaveUp)
      else if state.Holding? && state.place != LoopTest then Set(p, c, AfterCancel(state))
      else p
    case Resume(_) => if state.Holding? && state.place != LoopTest then AfterResume(p, c, state) else p
    case Test(_) => if state.Holding? && state.place == LoopTest then AfterTest(p, c, state) else p
  }

  function Run(p: Pool, events: seq<Event>): Pool
    decreases |events|
  {
    if events == [] then p else Run(Step(p, events[0]), events[1..])
  }

  lemma {:induction false} RunInParts(p: Pool, first: seq<Event>, second: seq<Event>)
    ensures Run(p, first + second) == Run(Run(p, first), second)
    decreases |first|
  {
    if first == [] {
      assert first + second == second;
    } else {
      assert (first + second)[1..] == first[1..] + second;
      RunInParts(Step(p, first[0]), first[1..], second);
    }
  }

  // ----- the invariant -----

  function Holders(p: Pool): set<CallerId> {
    set c | c in p.callers && p.callers[c].Holding?
  }

  /** Threads that may still be running, started or about to start. */
  function Threads(p: Pool): set<CallerId> {
    set c | c in p.callers && p.callers[c].Holding? && (p.callers[c].work.Queued? || p.callers[c].work.Running?)
  }

  /**
   A resolved shield mirrors a finished worker.  A caller is past its first
   await only because a cancellation reached it, and at the first await every
   cancellation is still to be delivered.
   */
  ghost predicate CallerSound(state: Caller) {
    match state
    case Waiting => true
    case GaveUp => true
    case Holding(work, place, shield, mustCancel, cancelled) =>
      && (shield.Resolved? ==> work == TaskDone(shield.succeeded))
      && (place == LoopTest ==> shield.Pending?)
      && (mustCancel ==> shield != Pending)
      && (cancelled <==> place != FirstAwait || shield.Withdrawn? || mustCancel)
    case Left(work, outcome, cancelled) =>
      && work.TaskDone? && (cancelled <==> outcome == CancelledOut)
      && (outcome == ReturnedResult ==> work.succeeded) && (outcome == RaisedError ==> !work.succeeded)
  }

  ghost predicate CallersSound(p: Pool) {
    forall c :: c in p.callers ==> CallerSound(p.callers[c])
  }

  ghost predicate SlotsAdd(p: Pool) {
    p.free + |Holders(p)| == p.bound
  }

  ghost predicate ReleasesCount(p: Pool) {
    forall c :: p.released[c] == if c in p.callers && p.callers[c].Left? then 1 else 0
  }

  ghost predicate Sound(p: Pool) {
    CallersSound(p) && SlotsAdd(p) && ReleasesCount(p)
  }

  /** No step takes a holder out of its block before its worker task is done. */
  lemma StepCallers(p: Pool, e: Event)
    requires CallersSound(p)
    ensures CallersSound(Step(p, e))
  {
    assert CallerSound(StateOf(p, e.caller));
    forall c | c in Step(p, e).callers ensures CallerSound(Step(p, e).callers[c]) {
      if c != e.caller {
        assert Step(p, e).callers[c] == p.callers[c];
      }
    }
  }

  /** A step changes the free count and the releases exactly when its caller starts or stops holding. */
  lemma StepCounts(p: Pool, e: Event)
    ensures var p', c := Step(p, e), e.caller;
            && p'.bound == p.bound && (forall d :: d != c ==> StateOf(p', d) == StateOf(p, d) && (d in p'.callers <==> d in p.callers))
            && p'.free - p.free == (if StateOf(p, c).Holding? then 1 else 0) - (if StateOf(p', c).Holding? then 1 else 0)
            && p'.released == p.released + (if !StateOf(p, c).Left? && StateOf(p', c).Left? then multiset{c} else multiset{})
            && (StateOf(p, c).Left? ==> p' == p)
            && (StateOf(p', c).Left? ==> StateOf(p, c).Left? || StateOf(p, c).Holding?)
  {
  }

  lemma OneMayDiffer(a: set<CallerId>, b: set<CallerId>, c: CallerId)
    requires forall d :: d != c ==> (d in a <==> d in b)
    ensures |b| - |a| == (if c in b then 1 else 0) - (if c in a then 1 else 0)
  {
    var others := a - {c};
    assert b - {c} == others;
    assert a == if c in a then others + {c} else others;
    assert b == if c in b then others + {c} else others;
  }

  lemma HoldersAre(p: Pool, c: CallerId)
    ensures c in Holders(p) <==> StateOf(p, c).Holding?
  {
  }

  lemma HoldersChange(p: Pool, p': Pool, c: CallerId)
    requires forall d :: d != c ==> StateOf(p', d) == StateOf(p, d) && (d in p'.callers <==> d in p.callers)
    ensures |Holders(p')| - |Holders(p)| == (if StateOf(p', c).Holding? then 1 else 0) - (if StateOf(p, c).Holding? then 1 else 0)
  {
    hide Holders;
    forall d ensures d in Holders(p) <==> StateOf(p, d).Holding? {
      HoldersAre(p, d);
    }
    forall d ensures d in Holders(p') <==> StateOf(p', d).Holding? {
      HoldersAre(p', d);
    }
    hide StateOf;
    OneMayDiffer(Holders(p), Holders(p'), c);
  }

  lemma StepSound(p: Pool, e: Event)
    requires Sound(p)
    ensures Sound(Step(p, e)) && Step(p, e).bound == p.bound
  {
    var p', c := Step(p, e), e.caller;
    StepCallers(p, e);
    StepCounts(p, e);
    HoldersChange(p, p', c);
    hide Step, Holders, CallersSound;
    forall d ensures p'.released[d] == if d in p'.callers && p'.callers[d].Left? then 1 else 0 {
      assert d != c ==> StateOf(p', d) == StateOf(p, d);
    }
  }

  lemma {:induction false} RunSound(p: Pool, events: seq<Event>)
    requires Sound(p)
    ensures Sound(Run(p, events)) && Run(p, events).bound == p.bound
    decreases |events|
  {
    if events != [] {
      StepSound(p, events[0]);
      hide Sound, Step;
      RunSound(Step(p, events[0]), events[1..]);
    }
  }

  lemma FewerThreads(p: Pool)
    ensures |Threads(p)| <= |Holders(p)|
  {
    assert Threads(p) + (Holders(p) - Threads(p)) == Holders(p);
  }

  function Idle(bound: nat): Pool {
    Pool(bound, bound, map[], multiset{})
  }

  /**
   Under every schedule with any number of cancellations at any await: free and
   held slots make up the bound, no more threads are under way than that, and
   each slot that was taken is released exactly once, and only after its worker
   task is done.
   */
  lemma SlotsConserved(bound: nat, events: seq<Event>)
    ensures var end := Run(Idle(bound), events);
            && end.free + |Holders(end)| == bound && |Threads(end)| <= bound
            && forall c :: end.released[c] <= 1
                           && (end.released[c] == 1 <==> c in end.callers && end.callers[c].Left?)
                           && (end.released[c] == 1 ==> end.callers[c].work.TaskDone?)
  {
    assert Holders(Idle(bound)) == {};
    RunSound(Idle(bound), events);
    FewerThreads(Run(Idle(bound), events));
  }

  /** In every run, a caller that left was cancelled out exactly when a cancellation hit it, and otherwise has its worker's result. */
  lemma CancellationAlwaysSurfaces(bound: nat, events: seq<Event>, c: CallerId)
    requires var end := Run(Idle(bound), events); c in end.callers && end.callers[c].Left?
    ensures var state := Run(Idle(bound), events).callers[c];
            state.work.TaskDone? &&
            state.outcome == if state.cancelled then CancelledOut else if state.work.succeeded then ReturnedResult else RaisedError
  {
    assert Holders(Idle(bound)) == {};
    RunSound(Idle(bound), events);
  }

  // ----- progress -----

  /** What the caller answers once its worker task is done: the cancellation if one reached it, and else the worker's result. */
  predicate Settled(state: Caller, succeeded: bool) {
    state.Left? && state.work == TaskDone(succeeded)
    && state.outcome == if state.cancelled then CancelledOut else if succeeded then ReturnedResult else RaisedError
  }

  /** Events of other callers, and what they leave alone. */
  lemma {:induction false} OthersLeaveAlone(p: Pool, events: seq<Event>, c: CallerId)
    requires forall i :: 0 <= i < |events| ==> events[i].caller != c
    ensures StateOf(Run(p, events), c) == StateOf(p, c)
    decreases |events|
  {
    if events != [] {
      StepCounts(p, events[0]);
      hide Step;
      assert forall i :: 0 <= i < |events[1..]| ==> events[1..][i] == events[i + 1];
      OthersLeaveAlone(Step(p, events[0]), events[1..], c);
    }
  }

  /**
   A holder whose worker task is done is out of the block, with its slot
   released, as soon as its shield and then its own code have run, whatever
   the other callers do in between.
   */
  lemma HolderLeaves(p: Pool, c: CallerId, first: seq<Event>, second: seq<Event>)
    requires Sound(p) && StateOf(p, c).Holding? && StateOf(p, c).work.TaskDone?
    requires forall i :: 0 <= i < |first| ==> first[i].caller != c
    requires forall i :: 0 <= i < |second| ==> second[i].caller != c
    ensures var resumed := Step(Run(Step(p, ShieldResolves(c)), first), Resume(c));
            var end := Step(Run(resumed, second), Test(c));
            Settled(StateOf(end, c), StateOf(p, c).work.succeeded) && end.released[c] == 1
  {
    var resolved := Step(p, ShieldResolves(c));
    var woken := Run(resolved, first);
    var resumed := Step(woken, Resume(c));
    var later := Run(resumed, second);
    StepSound(p, ShieldResolves(c));
    RunSound(resolved, first);
    StepSound(woken, Resume(c));
    RunSound(resumed, second);
    StepSound(later, Test(c));
    OthersLeaveAlone(resolved, first, c);
    OthersLeaveAlone(resumed, second, c);
    ShieldResolved(p, c);
    ResumedOrOut(woken, c);
    TestedOut(later, c);
    assert c in Step(later, Test(c)).callers ==> CallerSound(Step(later, Test(c)).callers[c]);
    hide Step, Run;
  }

  lemma ShieldResolved(p: Pool, c: CallerId)
    requires CallersSound(p) && StateOf(p, c).Holding? && StateOf(p, c).work.TaskDone?
    ensures var state := StateOf(Step(p, ShieldResolves(c)), c);
            state.Holding? && state.work == StateOf(p, c).work && (state.place == LoopTest || AnswerOf(state) != NotYet)
  {
    assert CallerSound(StateOf(p, c));
  }

  lemma ResumedOrOut(p: Pool, c: CallerId)
    requires StateOf(p, c).Holding? && (StateOf(p, c).place == LoopTest || AnswerOf(StateOf(p, c)) != NotYet)
    ensures var state := StateOf(Step(p, Resume(c)), c);
            (state.Left? || (state.Holding? && state.place == LoopTest)) && state.work == StateOf(p, c).work
  {
  }

  lemma TestedOut(p: Pool, c: CallerId)
    requires StateOf(p, c).Left? || (StateOf(p, c).Holding? && StateOf(p, c).place == LoopTest && StateOf(p, c).work.TaskDone?)
    ensures StateOf(Step(p, Test(c)), c).Left? && StateOf(Step(p, Test(c)), c).work == StateOf(p, c).work
  {
  }

  /** A caller waiting for a slot gets one exactly when one is free, and its work is under way from there. */
  lemma SlotIsTaken(p: Pool, c: CallerId)
    requires StateOf(p, c).Waiting?
    ensures var taken := Step(p, Acquire(c));
            (StateOf(taken, c).Holding? <==> p.free > 0)
            && (p.free > 0 ==>
                  taken.free == p.free - 1
                  && var started := Step(taken, ThreadStarts(c));
                     StateOf(started, c).work.Running?
                     && forall ok: bool ::
                          StateOf(Step(Step(started, ThreadReturns(c, ok)), TaskFinishes(c)), c).work == TaskDone(ok))
  {
  }

  // ----- the caller's own code -----

  /** Everything else that can happen while a caller is suspended at an await. */
  predicate Foreign(events: seq<Event>, c: CallerId) {
    forall i :: 0 <= i < |events| ==> events[i].caller == c ==> !events[i].Resume? && !events[i].Test?
  }

  /** The machine's events for a caller that is resumed after each of the given stretches. */
  function Trace(stretches: seq<seq<Event>>, c: CallerId): seq<Event>
    decreases |stretches|
  {
    if stretches == [] then []
    else Trace(stretches[..|stretches| - 1], c) + stretches[|stretches| - 1] + [Resume(c), Test(c)]
  }

  lemma {:induction false} SuspendedStays(p: Pool, events: seq<Event>, c: CallerId)
    requires Foreign(events, c) && StateOf(p, c).Holding? && StateOf(p, c).place != LoopTest
    ensures var after := StateOf(Run(p, events), c); after.Holding? && after.place == StateOf(p, c).place
    decreases |events|
  {
    if events != [] {
      assert Foreign(events[1..], c) by {
        assert forall i :: 0 <= i < |events[1..]| ==> events[1..][i] == events[i + 1];
      }
      SuspendedStays(Step(p, events[0]), events[1..], c);
    }
  }

  /** The pool is where the caller's own code has just been suspended or is about to be resumed. */
  ghost predicate Reaches(start: Pool, stretches: seq<seq<Event>>, c: CallerId, pool: Pool) {
    Step(Step(pool, Resume(c)), Test(c)) == Run(start, Trace(stretches, c))
  }

  lemma StretchReaches(start: Pool, stretches: seq<seq<Event>>, k: nat, c: CallerId, pool: Pool)
    requires k < |stretches| && Reaches(start, stretches[..k], c, pool)
    requires StateOf(pool, c).Holding? && StateOf(pool, c).place != LoopTest && AnswerOf(StateOf(pool, c)) == NotYet
    ensures Reaches(start, stretches[..k + 1], c, Run(pool, stretches[k]))
  {
    var longer := stretches[..k + 1];
    assert longer[..|longer| - 1] == stretches[..k] && longer[|longer| - 1] == stretches[k];
    assert Step(Step(pool, Resume(c)), Test(c)) == pool;
    hide Step;
    RunInParts(start, Trace(stretches[..k], c) + stretches[k], [Resume(c), Test(c)]);
    RunInParts(start, Trace(stretches[..k], c), stretches[k]);
    var suspended := Run(pool, stretches[k]);
    assert [Resume(c), Test(c)][1..] == [Test(c)] && [Test(c)][1..] == [];
    assert Run(Step(suspended, Resume(c)), [Test(c)]) == Step(Step(suspended, Resume(c)), Test(c));
  }

  /** `await asyncio.shield(worker)`: suspended until the await gives an answer, or the schedule ends. */
  method Await(ghost start: Pool, suspended: Pool, c: CallerId, stretches: seq<seq<Event>>, from: nat)
    returns (pool: Pool, used: nat)
    requires from <= |stretches| && Reaches(start, stretches[..from], c, suspended)
    requires forall k :: 0 <= k < |stretches| ==> Foreign(stretches[k], c)
    requires var state := StateOf(suspended, c); state.Holding? && state.place != LoopTest && state.shield == Pending
    ensures from <= used <= |stretches| && Reaches(start, stretches[..used], c, pool)
    ensures StateOf(pool, c).Holding? && StateOf(pool, c).place == StateOf(suspended, c).place
    ensures AnswerOf(StateOf(pool, c)) == NotYet ==> used == |stretches|
    ensures AnswerOf(StateOf(pool, c)) != NotYet ==> used > from
  {
    hide Run, Reaches, Foreign;
    pool, used := suspended, from;
    while used < |stretches| && AnswerOf(StateOf(pool, c)) == NotYet
      invariant from <= used <= |stretches| && Reaches(start, stretches[..used], c, pool)
      invariant StateOf(pool, c).Holding? && StateOf(pool, c).place == StateOf(suspended, c).place
      invariant used == from ==> AnswerOf(StateOf(pool, c)) == NotYet
    {
      StretchReaches(start, stretches, used, c, pool);
      SuspendedStays(pool, stretches[used], c);
      pool := Run(pool, stretches[used]);
      used := used + 1;
    }
  }

  /**
   The block after the slot is taken: the shielded await, and the loop that
   holds on through further cancellations.  It performs exactly the machine's
   own steps of this caller, and leaves only with the worker task done.
   */
  method RunBounded(start: Pool, c: CallerId, stretches: seq<seq<Event>>) returns (pool: Pool, used: nat)
    requires Sound(start) && StateOf(start, c) == Holding(Queued, FirstAwait, Pending, false, false)
    requires forall k :: 0 <= k < |stretches| ==> Foreign(stretches[k], c)
    ensures used <= |stretches| && pool == Run(start, Trace(stretches[..used], c))
    ensures used < |stretches| ==> StateOf(pool, c).Left?
    ensures StateOf(pool, c).Left? ==> StateOf(pool, c).work.TaskDone?
  {
    hide Sound, Trace, Run, Foreign;
    NoStretches(start, stretches, c);
    pool, used := Await(start, start, c, stretches, 0);
    var state := StateOf(pool, c);
    match AnswerOf(state) {
      case NotYet =>
        StaysSound(start, stretches[..used], c, pool);
        return;
      case Value =>
        pool := Leave(pool, c, state, ReturnedResult);
        StaysSound(start, stretches[..used], c, pool);
        return;
      case Error =>
        pool := Leave(pool, c, state, RaisedError);
        StaysSound(start, stretches[..used], c, pool);
        return;
      case Cancellation =>
        pool := Set(pool, c, Holding(state.work, LoopTest, Pending, false, state.cancelled));
    }
    pool, used := HoldOn(start, pool, c, stretches, used);
    StaysSound(start, stretches[..used], c, pool);
  }

  /** After a cancellation: `while not worker.done()`, then leave with it. */
  method HoldOn(ghost start: Pool, cancelled: Pool, c: CallerId, stretches: seq<seq<Event>>, from: nat)
    returns (pool: Pool, used: nat)
    requires from <= |stretches| && Reaches(start, stretches[..from], c, cancelled)
    requires forall k :: 0 <= k < |stretches| ==> Foreign(stretches[k], c)
    requires StateOf(cancelled, c).Holding? && StateOf(cancelled, c).place == LoopTest
    ensures used <= |stretches| && pool == Run(start, Trace(stretches[..used], c))
    ensures used < |stretches| ==> StateOf(pool, c).Left?
  {
    hide Run, Trace, Foreign;
    pool, used := cancelled, from;
    var state := StateOf(pool, c);
    while !state.work.TaskDone?
      invariant used <= |stretches| && Reaches(start, stretches[..used], c, pool)
      invariant state == StateOf(pool, c) && state.Holding? && state.place == LoopTest
      decreases |stretches| - used
    {
      pool := Set(pool, c, Holding(state.work, LoopAwait, Pending, false, state.cancelled));
      pool, used := Await(start, pool, c, stretches, used);
      state := StateOf(pool, c);
      match AnswerOf(state) {
        case NotYet => return;
        case Error =>
          pool := Leave(pool, c, state, CancelledOut);
          return;
        case Value =>
        case Cancellation =>
      }
      pool := Set(pool, c, Holding(state.work, LoopTest, Pending, false, state.cancelled));
      state := StateOf(pool, c);
    }
    pool := Leave(pool, c, state, CancelledOut);
  }

  lemma NoStretches(start: Pool, stretches: seq<seq<Event>>, c: CallerId)
    requires StateOf(start, c) == Holding(Queued, FirstAwait, Pending, false, false)
    ensures Reaches(start, stretches[..0], c, start)
  {
    assert stretches[..0] == [];
    assert Trace([], c) == [];
  }

  lemma StaysSound(start: Pool, stretches: seq<seq<Event>>, c: CallerId, pool: Pool)
    requires Sound(start) && pool == Run(start, Trace(stretches, c))
    ensures StateOf(pool, c).Left? ==> StateOf(pool, c).work.TaskDone?
  {
    RunSound(start, Trace(stretches, c));
    assert c in pool.callers ==> CallerSound(pool.callers[c]);
  }
}
