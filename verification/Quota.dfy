/**
 Fixed-window quotas: one counter key per subject that lives for one window
 from its first increment, an increment that admits or denies, and an
 inspection that predicts it.  Times are the store's milliseconds.
 */
module Quota {
  import opened Wrappers

  datatype Policy = Policy(limit: nat, windowSeconds: nat)

  const MAX_LIMIT: nat := 1_000_000
  const MAX_WINDOW_SECONDS: nat := 30 * 86_400

  predicate Valid(p: Policy) {
    1 <= p.limit <= MAX_LIMIT && 1 <= p.windowSeconds <= MAX_WINDOW_SECONDS
  }

  function WindowMs(p: Policy): nat {
    p.windowSeconds * 1000
  }

  // A stored counter without a deadline is corrupted state.
  datatype Counter = Counter(count: int, deadline: Option<nat>)

  datatype Verdict = Allowed(remaining: nat, resetMs: int) | Denied(retryMs: int) | Unavailable

  /** A key is still there at its deadline and gone after it. */
  function At(key: Option<Counter>, now: nat): Option<Counter> {
    if key.Some? && key.value.deadline.Some? && now > key.value.deadline.value then None else key
  }

  function RemainingMs(counter: Counter, now: nat): int {
    if counter.deadline.None? then -1 else counter.deadline.value - now
  }

  function Parse(p: Policy, allowed: bool, count: int, ttlMs: int): Verdict {
    if count < 1 || !(0 < ttlMs <= WindowMs(p)) then Unavailable
    else if allowed then Allowed(if count < p.limit then p.limit - count else 0, ttlMs)
    else Denied(ttlMs)
  }

  /** The increment: a count that becomes one starts a window, any other keeps its deadline. */
  function Increment(p: Policy, key: Option<Counter>, now: nat): (Option<Counter>, Verdict) {
    if key.Some? && key.value.deadline.None? then (key, Unavailable)
    else
      var count := if key.None? then 1 else key.value.count + 1;
      var counter := Counter(count, if count == 1 then Some(now + WindowMs(p)) else key.value.deadline);
      (Some(counter),
       if RemainingMs(counter, now) <= 0 then Unavailable
       else Parse(p, counter.count <= p.limit, counter.count, RemainingMs(counter, now)))
  }

  function Inspect(p: Policy, key: Option<Counter>, now: nat): Verdict {
    if key.None? then Allowed(p.limit, 0)
    else if key.value.count < 1 || RemainingMs(key.value, now) <= 0 then Unavailable
    else Parse(p, key.value.count < p.limit, key.value.count, RemainingMs(key.value, now))
  }

  predicate SameKind(a: Verdict, b: Verdict) {
    a.Allowed? == b.Allowed? && a.Denied? == b.Denied?
  }

  /**
   Inspection denies, allows or fails as an increment at that instant would,
   in every key state but one: a stored zero with a deadline, which inspection
   rejects and an increment starts over from.  A denial predicts the same wait.
   */
  lemma InspectionPredictsIncrement(p: Policy, key: Option<Counter>, now: nat)
    requires Valid(p)
    ensures var seen, done := Inspect(p, key, now), Increment(p, key, now).1;
            && (SameKind(seen, done) <==> !(key.Some? && key.value.count == 0 && key.value.deadline.Some?))
            && (seen.Denied? ==> seen == done)
  {
  }

  /** After a denial, an increment that comes `wait` milliseconds later is allowed exactly when that is more than the time given. */
  lemma RetryAllowedAfter(p: Policy, key: Option<Counter>, now: nat, wait: nat)
    requires Valid(p) && Increment(p, key, now).1.Denied?
    ensures var (later, verdict) := Increment(p, key, now);
            var retry := Increment(p, At(later, now + wait), now + wait).1;
            (retry.Allowed? <==> wait > verdict.retryMs) && (retry.Unavailable? <==> wait == verdict.retryMs)
  {
  }

  /** The `Retry-After` header shows whole seconds, rounded up and at least one. */
  function RetryAfterSeconds(retryMs: int): (seconds: int) {
    var rounded := (retryMs + 999) / 1000;
    if rounded < 1 then 1 else rounded
  }

  /** A client that waits just as long as the header says is allowed, unless the time left was a whole number of seconds. */
  lemma RetryAfterHeader(p: Policy, key: Option<Counter>, now: nat)
    requires Valid(p) && Increment(p, key, now).1.Denied?
    ensures var (later, verdict) := Increment(p, key, now);
            var retryAt := now + RetryAfterSeconds(verdict.retryMs) * 1000;
            && verdict.retryMs <= RetryAfterSeconds(verdict.retryMs) * 1000 < verdict.retryMs + 1000
            && (Increment(p, At(later, retryAt), retryAt).1.Allowed? <==> verdict.retryMs % 1000 != 0)
  {
    var verdict := Increment(p, key, now).1;
    var wait := RetryAfterSeconds(verdict.retryMs) * 1000;
    assert verdict.retryMs > 0;
    assert wait >= verdict.retryMs && (wait == verdict.retryMs <==> verdict.retryMs % 1000 == 0);
    RetryAllowedAfter(p, key, now, wait);
  }

  // ----- the key in place -----

  class Window {
    const policy: Policy
    var now: nat
    var key: Option<Counter>

    constructor (p: Policy)
      ensures policy == p && now == 0 && key == None
    {
      policy, now, key := p, 0, None;
    }

    method RunIncrement() returns (verdict: Verdict)
      modifies this`key
      ensures (key, verdict) == Increment(policy, old(key), now)
    {
      if key.Some? && key.value.deadline.None? {
        return Unavailable;
      }
      var count := if key.Some? then key.value.count + 1 else 1;
      key := Some(Counter(count, if key.Some? then key.value.deadline else None));
      if count == 1 {
        key := Some(Counter(count, Some(now + WindowMs(policy))));
      }
      var remainingMs := RemainingMs(key.value, now);
      if remainingMs <= 0 {
        return Unavailable;
      }
      return Parse(policy, count <= policy.limit, count, remainingMs);
    }

    method PassTime(ms: nat)
      modifies this
      ensures now == old(now) + ms && key == At(old(key), now)
    {
      now := now + ms;
      if key.Some? && key.value.deadline.Some? {
        if now > key.value.deadline.value {
          key := None;
        }
      }
    }
  }

  // ----- runs -----

  // An admitted request and the start of the window that admitted it.
  datatype Admission = Admission(at: int, start: int)

  datatype State = State(now: nat, key: Option<Counter>, admissions: seq<Admission>)

  datatype Event = Check | Look | Wait(ms: nat)

  function Step(p: Policy, s: State, e: Event): State {
    match e
    case Check =>
      var (key, verdict) := Increment(p, s.key, s.now);
      s.(key := key,
         admissions := if verdict.Allowed? then s.admissions + [Admission(s.now, key.value.deadline.value - WindowMs(p))]
                       else s.admissions)
    case Look => s
    case Wait(ms) => s.(now := s.now + ms, key := At(s.key, s.now + ms))
  }

  function Run(p: Policy, s: State, events: seq<Event>): State
    decreases |events|
  {
    if events == [] then s else Run(p, Step(p, s, events[0]), events[1..])
  }

  ghost function OfWindow(admissions: seq<Admission>, start: int): set<nat> {
    set i | 0 <= i < |admissions| && admissions[i].start == start
  }

  ghost function Within(admissions: seq<Admission>, from: int, to: int): set<nat> {
    set i | 0 <= i < |admissions| && from <= admissions[i].at <= to
  }

  /** Admissions lie inside their windows, windows do not touch, and each window's first admission opens it. */
  ghost predicate Spaced(p: Policy, admissions: seq<Admission>) {
    && (forall i :: 0 <= i < |admissions| ==> admissions[i].start <= admissions[i].at < admissions[i].start + WindowMs(p))
    && (forall i, j :: 0 <= i < j < |admissions| ==>
          admissions[i].start == admissions[j].start || admissions[i].start + WindowMs(p) < admissions[j].start)
    && (forall i :: 0 <= i < |admissions| ==> Opened(admissions, admissions[i].start))
  }

  ghost predicate Opened(admissions: seq<Admission>, start: int) {
    exists k :: 0 <= k < |admissions| && admissions[k] == Admission(start, start)
  }

  ghost predicate Limited(p: Policy, admissions: seq<Admission>) {
    forall start: int :: |OfWindow(admissions, start)| <= p.limit
  }

  /** The live key has counted every admission of the window it stands for. */
  ghost predicate KeySound(p: Policy, s: State) {
    match s.key
    case None => forall i :: 0 <= i < |s.admissions| ==> s.admissions[i].start + WindowMs(p) < s.now
    case Some(counter) =>
      && counter.count >= 1 && counter.deadline.Some? && s.now <= counter.deadline.value
      && var start := counter.deadline.value - WindowMs(p);
         && start <= s.now && |OfWindow(s.admissions, start)| <= counter.count && Opened(s.admissions, start)
         && forall i :: 0 <= i < |s.admissions| ==>
              s.admissions[i].start == start || s.admissions[i].start + WindowMs(p) < start
  }

  ghost predicate Sound(p: Policy, s: State) {
    Valid(p) && Spaced(p, s.admissions) && Limited(p, s.admissions) && KeySound(p, s)
  }

  lemma OneMore(admissions: seq<Admission>, a: Admission, start: int)
    ensures |OfWindow(admissions + [a], start)| == |OfWindow(admissions, start)| + (if a.start == start then 1 else 0)
  {
    if a.start == start {
      assert OfWindow(admissions + [a], start) == OfWindow(admissions, start) + {|admissions|};
    } else {
      assert OfWindow(admissions + [a], start) == OfWindow(admissions, start);
    }
  }

  lemma StillOpened(admissions: seq<Admission>, a: Admission, start: int)
    requires Opened(admissions, start) || a == Admission(start, start)
    ensures Opened(admissions + [a], start)
  {
    if Opened(admissions, start) {
      var k :| 0 <= k < |admissions| && admissions[k] == Admission(start, start);
      assert (admissions + [a])[k] == Admission(start, start);
    } else {
      assert (admissions + [a])[|admissions|] == a;
    }
  }

  lemma AdmittedKeepsSpaced(p: Policy, admissions: seq<Admission>, a: Admission)
    requires Spaced(p, admissions) && a.start <= a.at < a.start + WindowMs(p)
    requires Opened(admissions, a.start) || a.at == a.start
    requires forall i :: 0 <= i < |admissions| ==>
               admissions[i].start == a.start || admissions[i].start + WindowMs(p) < a.start
    ensures Spaced(p, admissions + [a])
  {
    forall i | 0 <= i < |admissions + [a]| ensures Opened(admissions + [a], (admissions + [a])[i].start) {
      StillOpened(admissions, a, (admissions + [a])[i].start);
    }
  }

  lemma AdmittedKeepsLimited(p: Policy, admissions: seq<Admission>, a: Admission)
    requires Limited(p, admissions) && |OfWindow(admissions, a.start)| < p.limit
    ensures Limited(p, admissions + [a])
  {
    forall start: int ensures |OfWindow(admissions + [a], start)| <= p.limit {
      OneMore(admissions, a, start);
    }
  }

  lemma EmptyWindow(admissions: seq<Admission>, start: int)
    requires forall i :: 0 <= i < |admissions| ==> admissions[i].start != start
    ensures OfWindow(admissions, start) == {}
  {
  }

  /** The window an increment counts in: the live key's, or one that opens now. */
  ghost function CurrentStart(p: Policy, s: State): int
    requires s.key.Some? ==> s.key.value.deadline.Some?
  {
    if s.key.None? then s.now else s.key.value.deadline.value - WindowMs(p)
  }

  lemma KeyFacts(p: Policy, s: State)
    requires Sound(p, s)
    ensures s.key.Some? ==> s.key.value.deadline.Some? && s.key.value.count >= 1
    ensures var start := CurrentStart(p, s);
            && start <= s.now <= start + WindowMs(p) && (s.key.None? ==> start == s.now)
            && |OfWindow(s.admissions, start)| <= (if s.key.Some? then s.key.value.count else 0)
            && (Opened(s.admissions, start) || s.key.None?)
            && forall i :: 0 <= i < |s.admissions| ==>
                 s.admissions[i].start == start || s.admissions[i].start + WindowMs(p) < start
  {
    if s.key.None? {
      EmptyWindow(s.admissions, s.now);
    }
  }

  lemma CheckEffect(p: Policy, s: State)
    requires Valid(p) && (s.key.Some? ==> s.key.value.deadline.Some? && s.key.value.count >= 1)
    requires var start := CurrentStart(p, s); start <= s.now <= start + WindowMs(p)
    ensures var start, s' := CurrentStart(p, s), Step(p, s, Check);
            var count := if s.key.Some? then s.key.value.count else 0;
            && s'.now == s.now && s'.key == Some(Counter(count + 1, Some(start + WindowMs(p))))
            && s'.admissions == if count < p.limit && s.now < start + WindowMs(p)
                                then s.admissions + [Admission(s.now, start)] else s.admissions
  {
  }

  lemma AdmittedKeepsKey(p: Policy, s: State, start: int, count: nat)
    requires start <= s.now < start + WindowMs(p) && |OfWindow(s.admissions, start)| <= count
    requires Opened(s.admissions, start) || s.now == start
    requires forall i :: 0 <= i < |s.admissions| ==>
               s.admissions[i].start == start || s.admissions[i].start + WindowMs(p) < start
    ensures KeySound(p, State(s.now, Some(Counter(count + 1, Some(start + WindowMs(p)))), s.admissions + [Admission(s.now, start)]))
  {
    OneMore(s.admissions, Admission(s.now, start), start);
    StillOpened(s.admissions, Admission(s.now, start), start);
  }

  lemma RefusedKeepsKey(p: Policy, s: State, start: int, count: nat)
    requires start <= s.now <= start + WindowMs(p) && |OfWindow(s.admissions, start)| <= count && Opened(s.admissions, start)
    requires forall i :: 0 <= i < |s.admissions| ==>
               s.admissions[i].start == start || s.admissions[i].start + WindowMs(p) < start
    ensures KeySound(p, s.(key := Some(Counter(count + 1, Some(start + WindowMs(p))))))
  {
  }

  lemma CheckKeeps(p: Policy, s: State)
    requires Sound(p, s)
    ensures Sound(p, Step(p, s, Check))
  {
    hide Increment, Spaced, Limited, OfWindow, Opened, Step, KeySound, CurrentStart;
    KeyFacts(p, s);
    var start := CurrentStart(p, s);
    var count := if s.key.Some? then s.key.value.count else 0;
    CheckEffect(p, s);
    if count < p.limit && s.now < start + WindowMs(p) {
      var a := Admission(s.now, start);
      AdmittedKeepsSpaced(p, s.admissions, a);
      AdmittedKeepsLimited(p, s.admissions, a);
      AdmittedKeepsKey(p, s, start, count);
    } else {
      RefusedKeepsKey(p, s, start, count);
    }
  }

  lemma StepKeeps(p: Policy, s: State, e: Event)
    requires Sound(p, s)
    ensures Sound(p, Step(p, s, e))
  {
    hide Spaced, Limited;
    match e
    case Check => CheckKeeps(p, s);
    case Look =>
    case Wait(ms) => WaitKeeps(p, s, ms);
  }

  lemma WaitKeeps(p: Policy, s: State, ms: nat)
    requires KeySound(p, s)
    ensures KeySound(p, s.(now := s.now + ms, key := At(s.key, s.now + ms)))
  {
    hide OfWindow, Opened;
  }

  lemma {:induction false} RunKeeps(p: Policy, s: State, events: seq<Event>)
    requires Sound(p, s)
    ensures Sound(p, Run(p, s, events))
    decreases |events|
  {
    if events != [] {
      StepKeeps(p, s, events[0]);
      hide Sound, Step;
      RunKeeps(p, Step(p, s, events[0]), events[1..]);
    }
  }

  ghost predicate Initial(s: State) {
    s.key == None && s.admissions == []
  }

  lemma InitialSound(p: Policy, s: State)
    requires Valid(p) && Initial(s)
    ensures Sound(p, s)
  {
    forall start: int ensures |OfWindow(s.admissions, start)| <= p.limit {
      EmptyWindow(s.admissions, start);
    }
  }

  /** Each window admits at most the limit. */
  lemma WindowLimit(p: Policy, s: State, events: seq<Event>, start: int)
    requires Valid(p) && Initial(s)
    ensures |OfWindow(Run(p, s, events).admissions, start)| <= p.limit
  {
    InitialSound(p, s);
    RunKeeps(p, s, events);
  }

  // ----- the exact verdict -----

  /** Before its deadline, the live key's count is the number of admissions of its window, and more only once that is full. */
  ghost predicate Counted(p: Policy, s: State) {
    s.key.Some? && s.key.value.deadline.Some? && s.now < s.key.value.deadline.value ==>
      var taken := |OfWindow(s.admissions, s.key.value.deadline.value - WindowMs(p))|;
      taken == if s.key.value.count < p.limit then s.key.value.count else p.limit
  }

  lemma CheckKeepsCounted(p: Policy, s: State)
    requires Sound(p, s) && Counted(p, s)
    ensures Counted(p, Step(p, s, Check))
  {
    KeyFacts(p, s);
    CheckEffect(p, s);
    var start := CurrentStart(p, s);
    OneMore(s.admissions, Admission(s.now, start), start);
    if s.key.None? {
      NoneAdmitted(p, s);
    }
    hide Increment, OfWindow, Step, KeySound, Spaced, Limited;
  }

  lemma NoneAdmitted(p: Policy, s: State)
    requires Sound(p, s) && s.key.None?
    ensures OfWindow(s.admissions, s.now) == {}
  {
    EmptyWindow(s.admissions, s.now);
  }

  lemma {:induction false} RunKeepsCounted(p: Policy, s: State, events: seq<Event>)
    requires Sound(p, s) && Counted(p, s)
    ensures Counted(p, Run(p, s, events))
    decreases |events|
  {
    if events != [] {
      StepKeeps(p, s, events[0]);
      match events[0] {
        case Check => CheckKeepsCounted(p, s);
        case Look =>
        case Wait(ms) =>
      }
      hide Sound, Step, OfWindow;
      RunKeepsCounted(p, Step(p, s, events[0]), events[1..]);
    }
  }

  /**
   After every run, a check is admitted exactly while its window, the live one
   or one that opens now, has admitted less than the limit and is not in its
   last instant; it reports what is left of the limit and of the window.
   */
  lemma CheckExactly(p: Policy, initial: State, events: seq<Event>)
    requires Valid(p) && Initial(initial)
    ensures var s := Run(p, initial, events);
            && (s.key.Some? ==> s.key.value.deadline.Some?)
            && var start := CurrentStart(p, s);
               var taken, left := |OfWindow(s.admissions, start)|, start + WindowMs(p) - s.now;
               && 0 <= left <= WindowMs(p)
               && Increment(p, s.key, s.now).1
                  == if left == 0 then Unavailable
                     else if taken < p.limit then Allowed(p.limit - taken - 1, left)
                     else Denied(left)
  {
    InitialSound(p, initial);
    RunKeeps(p, initial, events);
    RunKeepsCounted(p, initial, events);
    VerdictOf(p, Run(p, initial, events));
  }

  lemma VerdictOf(p: Policy, s: State)
    requires Sound(p, s) && Counted(p, s)
    ensures s.key.Some? ==> s.key.value.deadline.Some?
    ensures var start := CurrentStart(p, s);
            var taken, left := |OfWindow(s.admissions, start)|, start + WindowMs(p) - s.now;
            && 0 <= left <= WindowMs(p)
            && Increment(p, s.key, s.now).1
               == if left == 0 then Unavailable
                  else if taken < p.limit then Allowed(p.limit - taken - 1, left)
                  else Denied(left)
  {
    KeyFacts(p, s);
    if s.key.None? {
      NoneAdmitted(p, s);
    }
    hide OfWindow, KeySound, Spaced, Limited, Opened;
  }

  lemma Fewer(small: set<nat>, big: set<nat>)
    requires small <= big
    ensures |small| <= |big|
  {
    assert small + (big - small) == big;
  }

  lemma UnionSize(a: set<nat>, b: set<nat>)
    ensures |a + b| <= |a| + |b|
  {
    assert a + b == a + (b - a);
    Fewer(b - a, b);
  }

  /** Of the earlier window all but its opening, and the later window, hold everything in the interval. */
  lemma TwoWindows(p: Policy, log: seq<Admission>, from: int, k: nat, j: nat)
    requires Limited(p, log) && Spaced(p, log)
    requires var inside := Within(log, from, from + WindowMs(p));
             k in inside && j in inside && log[k].start < log[j].start
             && forall i :: i in inside ==> log[k].start <= log[i].start
    ensures |Within(log, from, from + WindowMs(p))| <= 2 * p.limit - 1
  {
    var inside := Within(log, from, from + WindowMs(p));
    var first, second := OfWindow(log, log[k].start), OfWindow(log, log[j].start);
    assert Opened(log, log[k].start);
    var opening :| 0 <= opening < |log| && log[opening] == Admission(log[k].start, log[k].start);
    assert opening in first;
    forall i | i in inside ensures i in (first - {opening}) + second {
      OnlyTwo(p, log, from, k, j, i);
    }
    hide Within, OfWindow, Spaced;
    Fewer(inside, (first - {opening}) + second);
    UnionSize(first - {opening}, second);
  }

  /** Two windows at most reach into an interval of one window's length, and of the first its opening stays outside. */
  lemma AtMostTwoWindows(p: Policy, log: seq<Admission>, from: int)
    requires Valid(p) && Spaced(p, log) && Limited(p, log)
    ensures |Within(log, from, from + WindowMs(p))| <= 2 * p.limit - 1
  {
    hide Spaced;
    var inside := Within(log, from, from + WindowMs(p));
    if inside != {} {
      var k := LowestStart(log, inside);
      if j :| j in inside && log[j].start != log[k].start {
        TwoWindows(p, log, from, k, j);
      } else {
        Fewer(inside, OfWindow(log, log[k].start));
      }
    }
  }

  lemma LowestStart(log: seq<Admission>, inside: set<nat>) returns (k: nat)
    requires inside != {} && forall i :: i in inside ==> 0 <= i < |log|
    ensures k in inside && forall i :: i in inside ==> log[k].start <= log[i].start
    decreases inside
  {
    k :| k in inside;
    if i :| i in inside && log[i].start < log[k].start {
      var lower := set x | x in inside && log[x].start < log[k].start;
      assert i in lower && k !in lower;
      k := LowestStart(log, lower);
    }
  }

  /** A second window inside the interval starts so late that the first one started before it. */
  lemma Reach(p: Policy, log: seq<Admission>, from: int, k: nat, j: nat)
    requires Spaced(p, log) && k < |log| && j < |log| && log[k].start < log[j].start
    requires log[j].at <= from + WindowMs(p)
    ensures log[k].start + WindowMs(p) < log[j].start && log[k].start < from
  {
  }

  lemma OnlyTwo(p: Policy, log: seq<Admission>, from: int, k: nat, j: nat, i: nat)
    requires Spaced(p, log) && k < |log| && j < |log| && i < |log| && log[k].start < log[j].start
    requires log[k].start <= log[i].start && from <= log[i].at <= from + WindowMs(p)
    requires from <= log[k].at && from <= log[j].at <= from + WindowMs(p)
    ensures log[i].start == log[k].start || log[i].start == log[j].start
    ensures log[i].start == log[k].start ==> log[i] != Admission(log[k].start, log[k].start)
  {
    Reach(p, log, from, k, j);
  }

  /** In every run, no interval of one window's length admits more than twice the limit less one. */
  lemma IntervalLimit(p: Policy, s: State, events: seq<Event>, from: int)
    requires Valid(p) && Initial(s)
    ensures |Within(Run(p, s, events).admissions, from, from + WindowMs(p))| <= 2 * p.limit - 1
  {
    InitialSound(p, s);
    RunKeeps(p, s, events);
    AtMostTwoWindows(p, Run(p, s, events).admissions, from);
  }

  // ----- the bound is reached -----

  function Repeated(e: Event, times: nat): (events: seq<Event>)
    ensures |events| == times
  {
    if times == 0 then [] else [e] + Repeated(e, times - 1)
  }

  lemma {:induction false} RunInParts(p: Policy, s: State, first: seq<Event>, second: seq<Event>)
    ensures Run(p, s, first + second) == Run(p, Run(p, s, first), second)
    decreases |first|
  {
    if first == [] {
      assert first + second == second;
    } else {
      assert (first + second)[1..] == first[1..] + second;
      RunInParts(p, Step(p, s, first[0]), first[1..], second);
    }
  }

  function AdmissionsAt(at: int, start: int, times: nat): (admissions: seq<Admission>)
    ensures |admissions| == times && forall i :: 0 <= i < times ==> admissions[i] == Admission(at, start)
  {
    if times == 0 then [] else [Admission(at, start)] + AdmissionsAt(at, start, times - 1)
  }

  /** Checks at one instant of a live window are admitted while the count stays within the limit. */
  lemma {:induction false} Burst(p: Policy, s: State, times: nat)
    requires Valid(p) && s.key.Some? && s.key.value.deadline.Some? && 1 <= s.key.value.count <= p.limit - times
    requires s.now < s.key.value.deadline.value <= s.now + WindowMs(p)
    ensures Run(p, s, Repeated(Check, times))
         == State(s.now, Some(Counter(s.key.value.count + times, s.key.value.deadline)),
                  s.admissions + AdmissionsAt(s.now, s.key.value.deadline.value - WindowMs(p), times))
    decreases times
  {
    var start := s.key.value.deadline.value - WindowMs(p);
    if times == 0 {
      assert s.admissions + [] == s.admissions;
    } else {
      var next := Step(p, s, Check);
      assert next == State(s.now, Some(Counter(s.key.value.count + 1, s.key.value.deadline)),
                           s.admissions + [Admission(s.now, start)]);
      Burst(p, next, times - 1);
      assert Repeated(Check, times)[0] == Check && Repeated(Check, times)[1..] == Repeated(Check, times - 1);
      assert s.admissions + [Admission(s.now, start)] + AdmissionsAt(s.now, start, times - 1)
          == s.admissions + AdmissionsAt(s.now, start, times);
    }
  }

  function Range(low: nat, high: nat): (range: set<nat>)
    requires low <= high
    ensures |range| == high - low && forall i :: i in range <==> low <= i < high
  {
    if low == high then {} else Range(low, high - 1) + {high - 1}
  }

  lemma RunTwo(p: Policy, s: State, first: Event, second: Event)
    ensures Run(p, s, [first, second]) == Step(p, Step(p, s, first), second)
  {
    hide Step;
    assert [first, second][1..] == [second] && [second][1..] == [];
    assert Run(p, Step(p, s, first), [second]) == Step(p, Step(p, s, first), second);
  }

  /** One request opens a window, the rest of its limit comes just before its end, and a full window follows. */
  function DoubleBurst(p: Policy): seq<Event>
    requires Valid(p)
  {
    ([Check, Wait(WindowMs(p) - 1)] + Repeated(Check, p.limit - 1)) + ([Wait(2), Check] + Repeated(Check, p.limit - 1))
  }

  lemma FirstBurst(p: Policy, s: State)
    requires Valid(p) && s == State(0, None, [])
    ensures var w := WindowMs(p);
            Run(p, s, [Check, Wait(w - 1)] + Repeated(Check, p.limit - 1))
            == State(w - 1, Some(Counter(p.limit, Some(w))), [Admission(0, 0)] + AdmissionsAt(w - 1, 0, p.limit - 1))
  {
    var w := WindowMs(p);
    var begun := State(w - 1, Some(Counter(1, Some(w))), [Admission(0, 0)]);
    assert Run(p, s, [Check, Wait(w - 1)]) == begun by {
      RunTwo(p, s, Check, Wait(w - 1));
      assert Step(p, s, Check) == State(0, Some(Counter(1, Some(w))), [Admission(0, 0)]);
    }
    hide Run, Step;
    RunInParts(p, s, [Check, Wait(w - 1)], Repeated(Check, p.limit - 1));
    Burst(p, begun, p.limit - 1);
  }

  /** Two milliseconds later the window is over and a full new one can follow at once. */
  lemma SecondBurst(p: Policy, s: State)
    requires Valid(p) && s.now == WindowMs(p) - 1 && s.key == Some(Counter(p.limit, Some(WindowMs(p))))
    ensures var w := WindowMs(p);
            Run(p, s, [Wait(2), Check] + Repeated(Check, p.limit - 1)).admissions
            == s.admissions + [Admission(w + 1, w + 1)] + AdmissionsAt(w + 1, w + 1, p.limit - 1)
  {
    var w := WindowMs(p);
    var begun := State(w + 1, Some(Counter(1, Some(w + 1 + w))), s.admissions + [Admission(w + 1, w + 1)]);
    assert Run(p, s, [Wait(2), Check]) == begun by {
      RunTwo(p, s, Wait(2), Check);
    }
    hide Run, Step;
    RunInParts(p, s, [Wait(2), Check], Repeated(Check, p.limit - 1));
    Burst(p, begun, p.limit - 1);
  }

  lemma DoubleBurstAdmits(p: Policy, s: State)
    requires Valid(p) && s == State(0, None, [])
    ensures var w := WindowMs(p);
            Run(p, s, DoubleBurst(p)).admissions
            == [Admission(0, 0)] + AdmissionsAt(w - 1, 0, p.limit - 1)
               + [Admission(w + 1, w + 1)] + AdmissionsAt(w + 1, w + 1, p.limit - 1)
  {
    hide Run, AdmissionsAt;
    var more := Repeated(Check, p.limit - 1);
    FirstBurst(p, s);
    SecondBurst(p, Run(p, s, [Check, Wait(WindowMs(p) - 1)] + more));
    RunInParts(p, s, [Check, Wait(WindowMs(p) - 1)] + more, [Wait(2), Check] + more);
  }

  lemma AllButFirst(log: seq<Admission>, from: int, to: int)
    requires |log| >= 1 && log[0].at < from && forall i :: 1 <= i < |log| ==> from <= log[i].at <= to
    ensures |Within(log, from, to)| == |log| - 1
  {
    assert Within(log, from, to) == Range(1, |log|);
  }

  lemma BurstTimes(w: nat, limit: nat)
    requires w >= 2 && limit >= 1
    ensures var log := [Admission(0, 0)] + AdmissionsAt(w - 1, 0, limit - 1)
                       + [Admission(w + 1, w + 1)] + AdmissionsAt(w + 1, w + 1, limit - 1);
            |log| == 2 * limit && log[0].at == 0 && forall i :: 1 <= i < |log| ==> w - 1 <= log[i].at <= 2 * w - 1
  {
  }

  /** The bound is the exact one: under every policy some interval of one window's length admits that many. */
  lemma IntervalLimitReached(p: Policy)
    requires Valid(p)
    ensures |Within(Run(p, State(0, None, []), DoubleBurst(p)).admissions, WindowMs(p) - 1, 2 * WindowMs(p) - 1)| == 2 * p.limit - 1
  {
    hide Run, DoubleBurst, AdmissionsAt, Within;
    DoubleBurstAdmits(p, State(0, None, []));
    BurstTimes(WindowMs(p), p.limit);
    AllButFirst(Run(p, State(0, None, []), DoubleBurst(p)).admissions, WindowMs(p) - 1, 2 * WindowMs(p) - 1);
  }

  // ----- the key message -----

  newtype Byte = n: int | 0 <= n < 256

  const KEY_PREFIX: seq<Byte> := [114, 108, 58, 118, 50] // "rl:v2"
  const NUL: seq<Byte> := [0]
  const MAX_SUBJECT_BYTES: nat := 1_024

  predicate Letter(b: Byte) { 97 <= b <= 122 }

  predicate IdentifierByte(b: Byte) { Letter(b) || 48 <= b <= 57 || b == 46 || b == 95 || b == 45 }

  predicate IsIdentifier(s: seq<Byte>) {
    1 <= |s| <= 64 && Letter(s[0]) && forall i :: 0 <= i < |s| ==> IdentifierByte(s[i])
  }

  function Message(namespace: seq<Byte>, name: seq<Byte>, subjectType: seq<Byte>, subject: seq<Byte>): Option<seq<Byte>> {
    if !IsIdentifier(namespace) || !IsIdentifier(subjectType) || !IsIdentifier(name) || !(1 <= |subject| <= MAX_SUBJECT_BYTES)
    then None
    else Some(KEY_PREFIX + NUL + namespace + NUL + name + NUL + subjectType + NUL + subject)
  }

  ghost predicate NoNul(s: seq<Byte>) {
    forall i :: 0 <= i < |s| ==> s[i] != 0
  }

  /** The first NUL ends a segment that has none of its own. */
  lemma SameSegment(a: seq<Byte>, b: seq<Byte>, restA: seq<Byte>, restB: seq<Byte>)
    requires NoNul(a) && NoNul(b) && a + NUL + restA == b + NUL + restB
    ensures a == b && restA == restB
  {
    var whole := a + NUL + restA;
    assert whole[|a|] == 0 && whole[|b|] == (b + NUL + restB)[|b|] == 0;
    assert forall i :: 0 <= i < |a| ==> whole[i] == a[i];
    assert forall i :: 0 <= i < |b| ==> whole[i] == (b + NUL + restB)[i] == b[i];
    assert |a| == |b|;
    assert restA == whole[|a| + 1..] == (b + NUL + restB)[|b| + 1..] == restB;
  }

  /** Different namespaces, policies, subject types or subjects never share a message, even with NULs in the subject. */
  lemma MessageInjective(namespace: seq<Byte>, name: seq<Byte>, subjectType: seq<Byte>, subject: seq<Byte>,
                         namespace': seq<Byte>, name': seq<Byte>, subjectType': seq<Byte>, subject': seq<Byte>)
    requires Message(namespace, name, subjectType, subject).Some?
    requires Message(namespace, name, subjectType, subject) == Message(namespace', name', subjectType', subject')
    ensures namespace == namespace' && name == name' && subjectType == subjectType' && subject == subject'
  {
    var a3, b3 := subjectType + NUL + subject, subjectType' + NUL + subject';
    var a2, b2 := name + NUL + a3, name' + NUL + b3;
    var a1, b1 := namespace + NUL + a2, namespace' + NUL + b2;
    assert Message(namespace, name, subjectType, subject).value == KEY_PREFIX + NUL + a1;
    assert Message(namespace', name', subjectType', subject').value == KEY_PREFIX + NUL + b1;
    SameSegment(KEY_PREFIX, KEY_PREFIX, a1, b1);
    SameSegment(namespace, namespace', a2, b2);
    SameSegment(name, name', a3, b3);
    SameSegment(subjectType, subjectType', subject, subject');
  }
}
