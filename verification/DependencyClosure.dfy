/**
 The worklist that checks an installed environment against exact pins: the
 distributions selected from the project's roots, with extras accumulated per
 distribution, are the least set closed under the dependencies that apply.
 */
module DependencyClosure {
  import opened Wrappers

  type Name = string
  type Version = string
  type Extra = string
  type MarkerId = nat
  type SpecifierId = nat

  datatype Requirement = Requirement(name: Name, extras: set<Extra>, specifier: Option<SpecifierId>, marker: Option<MarkerId>)

  datatype Distribution = Distribution(version: Version, requires_: seq<Requirement>)

  // Markers and version specifiers are evaluated by a library; `holds` and `satisfies` are its answers.
  datatype Environment = Environment(
    pins: map<Name, Version>,
    installed: map<Name, seq<Distribution>>,
    roots: seq<Requirement>,
    holds: (MarkerId, Extra) -> bool,
    satisfies: (SpecifierId, Version) -> bool
  )

  datatype Reason = Unpinned(Name) | NotUnique(Name) | WrongVersion(Name) | Unsatisfied(Name) | UvloopMissing

  const NO_EXTRA: Extra := ""

  // ----- what a selection means -----

  predicate Applies(env: Environment, r: Requirement, parentExtras: set<Extra>) {
    r.marker.None? || exists extra :: extra in parentExtras + {NO_EXTRA} && env.holds(r.marker.value, extra)
  }

  /** The requirement's distribution is pinned, installed once at its pin, and satisfies the specifier. */
  function Problem(env: Environment, r: Requirement): Option<Reason> {
    if r.name !in env.pins then Some(Unpinned(r.name))
    else if r.name !in env.installed || |env.installed[r.name]| != 1 then Some(NotUnique(r.name))
    else if env.installed[r.name][0].version != env.pins[r.name] then Some(WrongVersion(r.name))
    else if r.specifier.Some? && !env.satisfies(r.specifier.value, env.installed[r.name][0].version) then Some(Unsatisfied(r.name))
    else None
  }

  function Dependencies(env: Environment, n: Name): seq<Requirement> {
    if n in env.installed && |env.installed[n]| == 1 then env.installed[n][0].requires_ else []
  }

  // One fact about a selection: a distribution is in it, or one of its extras is.
  datatype Fact = Chosen(name: Name) | WithExtra(name: Name, extra: Extra)

  ghost function ExtrasIn(facts: set<Fact>, n: Name): set<Extra> {
    set f | f in facts && f.WithExtra? && f.name == n :: f.extra
  }

  /** An unmarked requirement counts always, a marked one if its marker holds without an extra or with one of those chosen. */
  ghost predicate Counts(env: Environment, r: Requirement, chosen: set<Extra>) {
    r.marker.Some? ==> env.holds(r.marker.value, "") || exists e :: e in chosen && env.holds(r.marker.value, e)
  }

  ghost predicate Selects(env: Environment, facts: set<Fact>, r: Requirement) {
    || (r in env.roots && Counts(env, r, {}))
    || exists n :: Chosen(n) in facts && r in Dependencies(env, n) && Counts(env, r, ExtrasIn(facts, n))
  }

  ghost predicate Has(facts: set<Fact>, r: Requirement) {
    Chosen(r.name) in facts && forall e :: e in r.extras ==> WithExtra(r.name, e) in facts
  }

  ghost predicate Closed(env: Environment, facts: set<Fact>) {
    forall r :: Selects(env, facts, r) ==> Has(facts, r)
  }

  /** The one installed version is the pinned one, and within the specifier if there is one. */
  ghost predicate Met(env: Environment, r: Requirement) {
    && r.name in env.pins && r.name in env.installed && |env.installed[r.name]| == 1
    && env.installed[r.name][0].version == env.pins[r.name]
    && (r.specifier.Some? ==> env.satisfies(r.specifier.value, env.pins[r.name]))
  }

  ghost predicate AllGood(env: Environment, facts: set<Fact>) {
    forall r :: Selects(env, facts, r) ==> Met(env, r)
  }

  /** The worklist's tests are the ones meant. */
  lemma TestsMean(env: Environment, r: Requirement, extras: set<Extra>)
    ensures Applies(env, r, extras) <==> Counts(env, r, extras)
    ensures Problem(env, r).None? <==> Met(env, r)
  {
    assert r.marker.Some? && env.holds(r.marker.value, "") ==> NO_EXTRA in extras + {NO_EXTRA} && Applies(env, r, extras);
    if extra :| extra in extras && r.marker.Some? && env.holds(r.marker.value, extra) {
      assert extra in extras + {NO_EXTRA};
    }
  }

  /** A reported reason says what is wrong with the requirement it names. */
  ghost predicate Explains(env: Environment, r: Requirement, reason: Reason) {
    match reason
    case Unpinned(n) => n == r.name && n !in env.pins
    case NotUnique(n) => n == r.name && n in env.pins && (n in env.installed ==> |env.installed[n]| != 1)
    case WrongVersion(n) =>
      n == r.name && n in env.pins && n in env.installed && |env.installed[n]| == 1
      && env.installed[n][0].version != env.pins[n]
    case Unsatisfied(n) =>
      n == r.name && n in env.pins && n in env.installed && |env.installed[n]| == 1
      && r.specifier.Some? && !env.satisfies(r.specifier.value, env.pins[n])
    case UvloopMissing => false
  }

  /** The facts are closed and hold in every closed set. */
  ghost predicate Least(env: Environment, facts: set<Fact>) {
    Closed(env, facts) && forall other :: Closed(env, other) ==> facts <= other
  }

  lemma AppliesMore(env: Environment, r: Requirement, few: set<Extra>, many: set<Extra>)
    requires Applies(env, r, few) && few <= many + {NO_EXTRA}
    ensures Applies(env, r, many)
  {
    if r.marker.Some? {
      var extra :| extra in few + {NO_EXTRA} && env.holds(r.marker.value, extra);
      assert extra in many + {NO_EXTRA};
    }
  }

  // ----- the worklist -----

  datatype Item = Item(requirement: Requirement, parentExtras: set<Extra>, source: Option<Name>)

  function Items(requirements: seq<Requirement>, extras: set<Extra>, source: Option<Name>): (items: seq<Item>)
    ensures |items| == |requirements|
    ensures forall i :: 0 <= i < |items| ==> items[i] == Item(requirements[i], extras, source)
  {
    seq(|requirements|, i requires 0 <= i < |requirements| => Item(requirements[i], extras, source))
  }

  ghost function FactsOf(visited: set<Name>, resolved: map<Name, set<Extra>>): set<Fact> {
    (set n | n in visited :: Chosen(n)) + (set n, e | n in resolved && e in resolved[n] :: WithExtra(n, e))
  }

  /** A queued requirement comes from a root or from a distribution already chosen, with extras that one has. */
  ghost predicate Justified(env: Environment, facts: set<Fact>, item: Item) {
    match item.source
    case None => item.requirement in env.roots && item.parentExtras == {NO_EXTRA}
    case Some(n) => Chosen(n) in facts && item.requirement in Dependencies(env, n) && item.parentExtras <= ExtrasIn(facts, n)
  }

  /** A requirement that applies is either met already or still queued with extras under which it applies. */
  ghost predicate Handled(env: Environment, facts: set<Fact>, queue: seq<Item>, r: Requirement) {
    || (Has(facts, r) && Problem(env, r).None?)
    || exists item :: item in queue && item.requirement == r && Applies(env, r, item.parentExtras)
  }

  predicate AtPin(env: Environment, n: Name) {
    n in env.pins && n in env.installed && |env.installed[n]| == 1 && env.installed[n][0].version == env.pins[n]
  }

  ghost predicate Progress(env: Environment, facts: set<Fact>, queue: seq<Item>) {
    && (forall item :: item in queue ==> Justified(env, facts, item))
    && (forall r :: Selects(env, facts, r) ==> Handled(env, facts, queue, r))
    && (forall other :: Closed(env, other) ==> facts <= other)
    && (forall n :: Chosen(n) in facts ==> AtPin(env, n))
  }

  lemma ExtrasGrow(facts: set<Fact>, more: set<Fact>, n: Name)
    requires facts <= more
    ensures ExtrasIn(facts, n) <= ExtrasIn(more, n)
  {
  }

  /** An applicable queued requirement belongs to every closed set. */
  lemma QueuedIsSelected(env: Environment, facts: set<Fact>, item: Item, other: set<Fact>)
    requires Justified(env, facts, item) && Applies(env, item.requirement, item.parentExtras)
    requires facts <= other
    ensures Selects(env, other, item.requirement)
  {
    match item.source
    case None =>
    case Some(n) =>
      ExtrasGrow(facts, other, n);
      AppliesMore(env, item.requirement, item.parentExtras, ExtrasIn(other, n));
  }

  lemma StartsInProgress(env: Environment)
    ensures Progress(env, {}, Items(env.roots, {NO_EXTRA}, None))
  {
    var queue := Items(env.roots, {NO_EXTRA}, None);
    forall r | Selects(env, {}, r) ensures Handled(env, {}, queue, r) {
      var i :| 0 <= i < |env.roots| && env.roots[i] == r;
      assert queue[i] in queue;
    }
  }

  /** An item that does not apply, or asks for nothing new, can be dropped. */
  lemma DropKeepsProgress(env: Environment, facts: set<Fact>, queue: seq<Item>)
    requires queue != [] && Progress(env, facts, queue)
    requires var item := queue[0];
             !Applies(env, item.requirement, item.parentExtras)
             || (Has(facts, item.requirement) && Problem(env, item.requirement).None?)
    ensures Progress(env, facts, queue[1..])
  {
    forall r | Selects(env, facts, r) ensures Handled(env, facts, queue[1..], r) {
      assert Handled(env, facts, queue, r);
      if !(Has(facts, r) && Problem(env, r).None?) {
        var item :| item in queue && item.requirement == r && Applies(env, r, item.parentExtras);
        assert item in queue[1..];
      }
    }
  }

  /** Choosing a distribution, or giving it more extras, queues all its dependencies under its extras so far. */
  lemma ChooseKeepsProgress(env: Environment, facts: set<Fact>, queue: seq<Item>, more: set<Fact>, extras: set<Extra>)
    requires queue != [] && Progress(env, facts, queue)
    requires var r := queue[0].requirement;
             && Applies(env, r, queue[0].parentExtras) && Problem(env, r).None?
             && more == facts + {Chosen(r.name)} + (set e | e in r.extras :: WithExtra(r.name, e))
             && extras == ExtrasIn(more, r.name)
    ensures Progress(env, more, queue[1..] + Items(Dependencies(env, queue[0].requirement.name), extras, Some(queue[0].requirement.name)))
  {
    var chosen := queue[0].requirement;
    var added := Items(Dependencies(env, chosen.name), extras, Some(chosen.name));
    var queue' := queue[1..] + added;
    forall item | item in queue' ensures Justified(env, more, item) {
      ChosenJustified(env, facts, queue, more, item, extras);
    }
    forall r | Selects(env, more, r) ensures Handled(env, more, queue', r) {
      ChosenHandled(env, facts, queue, more, extras, r);
    }
    forall other | Closed(env, other) ensures more <= other {
      QueuedIsSelected(env, facts, queue[0], other);
    }
  }

  lemma ChosenJustified(env: Environment, facts: set<Fact>, queue: seq<Item>, more: set<Fact>, item: Item, extras: set<Extra>)
    requires queue != [] && (forall item :: item in queue ==> Justified(env, facts, item)) && facts <= more
    requires var n := queue[0].requirement.name;
             Chosen(n) in more && extras == ExtrasIn(more, n)
             && item in queue[1..] + Items(Dependencies(env, n), extras, Some(n))
    ensures Justified(env, more, item)
  {
    if item in queue[1..] {
      assert item in queue;
      if item.source.Some? {
        ExtrasGrow(facts, more, item.source.value);
      }
    }
  }

  lemma ChosenHandled(env: Environment, facts: set<Fact>, queue: seq<Item>, more: set<Fact>, extras: set<Extra>, r: Requirement)
    requires queue != [] && Progress(env, facts, queue) && Selects(env, more, r)
    requires var chosen := queue[0].requirement;
             && Problem(env, chosen).None?
             && more == facts + {Chosen(chosen.name)} + (set e | e in chosen.extras :: WithExtra(chosen.name, e))
             && extras == ExtrasIn(more, chosen.name)
    ensures Handled(env, more, queue[1..] + Items(Dependencies(env, queue[0].requirement.name), extras, Some(queue[0].requirement.name)), r)
  {
    var chosen := queue[0].requirement;
    var added := Items(Dependencies(env, chosen.name), extras, Some(chosen.name));
    var queue' := queue[1..] + added;
    if r in Dependencies(env, chosen.name) && Applies(env, r, extras) {
      var i :| 0 <= i < |Dependencies(env, chosen.name)| && Dependencies(env, chosen.name)[i] == r;
      assert added[i] in queue';
    } else {
      SelectedBefore(env, facts, more, chosen, extras, r);
      assert Handled(env, facts, queue, r);
      if Has(facts, r) && Problem(env, r).None? {
        assert Has(more, r);
      } else {
        var item :| item in queue && item.requirement == r && Applies(env, r, item.parentExtras);
        if item == queue[0] {
          assert Has(more, chosen);
        } else {
          assert item in queue[1..] && item in queue';
        }
      }
    }
  }

  lemma SelectedBefore(env: Environment, facts: set<Fact>, more: set<Fact>, chosen: Requirement, extras: set<Extra>, r: Requirement)
    requires Selects(env, more, r) && extras == ExtrasIn(more, chosen.name)
    requires more == facts + {Chosen(chosen.name)} + (set e | e in chosen.extras :: WithExtra(chosen.name, e))
    requires !(r in Dependencies(env, chosen.name) && Applies(env, r, extras))
    ensures Selects(env, facts, r)
  {
    if !(r in env.roots && Applies(env, r, {NO_EXTRA})) {
      var n :| Chosen(n) in more && r in Dependencies(env, n) && Applies(env, r, ExtrasIn(more, n));
      assert n != chosen.name;
      assert ExtrasIn(more, n) == ExtrasIn(facts, n);
    }
  }

  /** An empty queue leaves exactly the least closed set, all of it good. */
  lemma EmptyQueueIsLeast(env: Environment, facts: set<Fact>)
    requires Progress(env, facts, [])
    ensures Least(env, facts) && AllGood(env, facts)
  {
    forall r | Selects(env, facts, r) ensures Has(facts, r) && Problem(env, r).None? {
      assert Handled(env, facts, [], r);
    }
  }

  /** A problem with an applicable queued requirement is a problem of every closed set. */
  lemma ProblemIsEverywhere(env: Environment, facts: set<Fact>, queue: seq<Item>)
    requires queue != [] && Progress(env, facts, queue)
    requires Applies(env, queue[0].requirement, queue[0].parentExtras) && Problem(env, queue[0].requirement).Some?
    ensures Blamed(env, queue[0].requirement, Problem(env, queue[0].requirement).value)
  {
    var r := queue[0].requirement;
    TestsMean(env, r, queue[0].parentExtras);
    forall other | Closed(env, other) ensures Selects(env, other, r) && !AllGood(env, other) {
      QueuedIsSelected(env, facts, queue[0], other);
    }
    hide Closed, Selects, AllGood;
  }

  /** Every closed selection contains the requirement, and the reason says what is wrong with it. */
  ghost predicate Blamed(env: Environment, r: Requirement, reason: Reason) {
    Explains(env, r, reason) && forall other :: Closed(env, other) ==> Selects(env, other, r) && !AllGood(env, other)
  }

  // ----- termination: only finitely many facts can ever be added -----

  ghost function AllRequirements(env: Environment): set<Requirement> {
    (set r | r in env.roots) + (set n, r | n in env.installed && r in Dependencies(env, n) :: r)
  }

  ghost function Universe(env: Environment): set<Fact> {
    (set r | r in AllRequirements(env) :: Chosen(r.name))
    + (set r, q, e | r in AllRequirements(env) && q in AllRequirements(env) && e in q.extras :: WithExtra(r.name, e))
  }

  /** There is always a closed selection, so what holds in every one of them is never empty talk. */
  lemma UniverseClosed(env: Environment)
    ensures Closed(env, Universe(env))
  {
    forall r | Selects(env, Universe(env), r) ensures Has(Universe(env), r) {
      assert r in AllRequirements(env);
    }
  }

  lemma QueuedFactsInUniverse(env: Environment, facts: set<Fact>, item: Item)
    requires Justified(env, facts, item)
    ensures Chosen(item.requirement.name) in Universe(env)
    ensures forall e :: e in item.requirement.extras ==> WithExtra(item.requirement.name, e) in Universe(env)
  {
    assert item.requirement in AllRequirements(env);
  }

  lemma FewerLeft(universe: set<Fact>, few: set<Fact>, many: set<Fact>)
    requires few < many <= universe
    ensures |universe - many| < |universe - few|
  {
    var added :| added in many && added !in few;
    assert universe - many <= universe - few - {added};
    SubsetIsSmaller(universe - many, universe - few - {added});
  }

  lemma SubsetIsSmaller(small: set<Fact>, big: set<Fact>)
    requires small <= big
    ensures |small| <= |big|
  {
    assert small + (big - small) == big;
  }

  // ----- the loop -----

  datatype Outcome = Closure(visited: set<Name>, resolved: map<Name, set<Extra>>) | Failure(reason: Reason)

  lemma FactsAfter(visited: set<Name>, resolved: map<Name, set<Extra>>, n: Name, extras: set<Extra>)
    requires visited == resolved.Keys
    ensures var previous := if n in resolved then resolved[n] else {};
            FactsOf(visited + {n}, resolved[n := previous + extras])
            == FactsOf(visited, resolved) + {Chosen(n)} + (set e | e in extras :: WithExtra(n, e))
    ensures var previous := if n in resolved then resolved[n] else {};
            ExtrasIn(FactsOf(visited + {n}, resolved[n := previous + extras]), n) == previous + extras
  {
    var previous := if n in resolved then resolved[n] else {};
    var after := resolved[n := previous + extras];
    forall f | f in FactsOf(visited + {n}, after)
      ensures f in FactsOf(visited, resolved) + {Chosen(n)} + (set e | e in extras :: WithExtra(n, e))
    {
      if f.WithExtra? && f.name != n {
        assert f.extra in resolved[f.name];
      }
    }
    forall f | f in FactsOf(visited, resolved) + {Chosen(n)} + (set e | e in extras :: WithExtra(n, e))
      ensures f in FactsOf(visited + {n}, after)
    {
      if f.WithExtra? {
        assert f.name in after && f.extra in after[f.name];
      }
    }
    forall e ensures e in ExtrasIn(FactsOf(visited + {n}, after), n) <==> e in previous + extras {
      if e in previous + extras {
        assert WithExtra(n, e) in FactsOf(visited + {n}, after);
      }
    }
  }

  lemma NothingNew(visited: set<Name>, resolved: map<Name, set<Extra>>, r: Requirement)
    requires visited == resolved.Keys && r.name in visited && r.extras <= resolved[r.name]
    ensures Has(FactsOf(visited, resolved), r)
  {
  }

  lemma SomethingNew(visited: set<Name>, resolved: map<Name, set<Extra>>, r: Requirement)
    requires visited == resolved.Keys && !(r.name in visited && r.extras <= resolved[r.name])
    ensures !Has(FactsOf(visited, resolved), r)
  {
    if r.name in visited {
      var e :| e in r.extras && e !in resolved[r.name];
      assert WithExtra(r.name, e) !in FactsOf(visited, resolved);
    }
  }

  /** One requirement of the worklist that applies and has no problem: its new facts, and what they add. */
  lemma ChoiceAddsFacts(env: Environment, facts: set<Fact>, queue: seq<Item>, more: set<Fact>)
    requires queue != [] && Progress(env, facts, queue) && facts <= Universe(env) && !Has(facts, queue[0].requirement)
    requires var r := queue[0].requirement;
             more == facts + {Chosen(r.name)} + (set e | e in r.extras :: WithExtra(r.name, e))
    ensures more <= Universe(env) && |Universe(env) - more| < |Universe(env) - facts|
  {
    QueuedFactsInUniverse(env, facts, queue[0]);
    hide Universe;
    FewerLeft(Universe(env), facts, more);
  }

  /**
   Checks every requirement the roots select.  On success the visited
   distributions and their extras are the least closed selection, each at its
   pin and with nothing wrong; a failure means that no closed selection is
   free of problems.
   */
  method ResolveSelection(env: Environment) returns (outcome: Outcome)
    ensures outcome.Closure? ==>
              var facts := FactsOf(outcome.visited, outcome.resolved);
              Least(env, facts) && AllGood(env, facts) && outcome.resolved.Keys == outcome.visited
              && forall n :: n in outcome.visited ==> AtPin(env, n)
    ensures outcome.Failure? ==> exists r :: Blamed(env, r, outcome.reason)
  {
    hide *;
    var visited: set<Name>, resolved: map<Name, set<Extra>> := {}, map[];
    var queue := Items(env.roots, {NO_EXTRA}, None);
    NoFacts();
    StartsInProgress(env);
    while queue != []
      invariant resolved.Keys == visited
      invariant Progress(env, FactsOf(visited, resolved), queue)
      invariant FactsOf(visited, resolved) <= Universe(env)
      decreases |Universe(env) - FactsOf(visited, resolved)|, |queue|
    {
      ghost var facts := FactsOf(visited, resolved);
      var item := queue[0];
      var r := item.requirement;
      if !Applies(env, r, item.parentExtras) {
        DropKeepsProgress(env, facts, queue);
        queue := queue[1..];
        continue;
      }
      var problem := Problem(env, r);
      if problem.Some? {
        ProblemIsEverywhere(env, facts, queue);
        return Failure(problem.value);
      }
      var previous := if r.name in resolved then resolved[r.name] else {};
      var combined := previous + r.extras;
      if r.name in visited && combined == previous {
        NothingNew(visited, resolved, r);
        DropKeepsProgress(env, facts, queue);
        queue := queue[1..];
        continue;
      }
      SomethingNew(visited, resolved, r);
      FactsAfter(visited, resolved, r.name, r.extras);
      visited, resolved := visited + {r.name}, resolved[r.name := combined];
      ghost var more := FactsOf(visited, resolved);
      ChooseKeepsProgress(env, facts, queue, more, combined);
      ChoiceAddsFacts(env, facts, queue, more);
      queue := queue[1..] + Items(Dependencies(env, r.name), combined, Some(r.name));
    }
    EmptyQueueIsLeast(env, FactsOf(visited, resolved));
    VisitedAtPin(env, visited, resolved);
    outcome := Closure(visited, resolved);
  }

  lemma NoFacts()
    ensures FactsOf({}, map[]) == {}
  {
  }

  lemma VisitedAtPin(env: Environment, visited: set<Name>, resolved: map<Name, set<Extra>>)
    requires Progress(env, FactsOf(visited, resolved), [])
    ensures forall n :: n in visited ==> AtPin(env, n)
  {
    assert forall n :: n in visited ==> Chosen(n) in FactsOf(visited, resolved);
  }

  const UVICORN: Name := "uvicorn"
  const UVLOOP: Name := "uvloop"

  /** The whole check passes exactly when some closed selection is free of problems and the least one has uvloop with uvicorn. */
  method CheckEnvironment(env: Environment) returns (outcome: Outcome)
    ensures outcome.Closure? <==>
            exists facts :: Least(env, facts) && AllGood(env, facts) && (Chosen(UVICORN) in facts ==> Chosen(UVLOOP) in facts)
    ensures outcome.Closure? ==> Least(env, FactsOf(outcome.visited, outcome.resolved))
    ensures outcome == Failure(UvloopMissing) <==>
            exists facts :: Least(env, facts) && AllGood(env, facts) && Chosen(UVICORN) in facts && Chosen(UVLOOP) !in facts
    ensures outcome.Failure? && outcome.reason != UvloopMissing ==> exists r :: Blamed(env, r, outcome.reason)
  {
    outcome := ResolveSelection(env);
    if outcome.Closure? {
      ghost var facts := FactsOf(outcome.visited, outcome.resolved);
      assert forall other :: Least(env, other) ==> other == facts;
      assert forall n :: Chosen(n) in facts <==> n in outcome.visited;
      hide Least, AllGood, FactsOf;
      if UVICORN in outcome.visited && UVLOOP !in outcome.visited {
        outcome := Failure(UvloopMissing);
      }
    }
  }
}
