/**
 One user's active sessions as the four registry scripts see them: a version
 high-water mark, the deadline of the keys, and the sessions in login order.
 */
module Sessions {
  import opened Wrappers

  type Field = nat // the digest under which a token id is filed

  datatype Record = Record(user: nat, tokenVersion: int, iat: nat, exp: int)

  datatype View = View(version: Option<nat>, deadlineMs: int, order: seq<Field>, records: map<Field, Record>)

  const EMPTY := View(None, 0, [], map[])

  datatype Activation = Invalid | Superseded | Conflict | Created
  datatype Revocation = Removed | Absent | Mismatch

  // The clock counts microseconds; scripts compare whole seconds, keys expire in milliseconds.
  function Seconds(now: nat): nat { now / 1_000_000 }
  function Millis(now: nat): nat { now / 1_000 }

  function Max(a: int, b: int): int { if a < b then b else a }

  // ----- sequences of distinct fields -----

  ghost predicate Distinct(s: seq<Field>) {
    forall i, j :: 0 <= i < j < |s| ==> s[i] != s[j]
  }

  function Without(s: seq<Field>, gone: set<Field>): seq<Field> {
    if s == [] then []
    else (if s[0] in gone then [] else [s[0]]) + Without(s[1..], gone)
  }

  lemma {:induction false} WithoutMembers(s: seq<Field>, gone: set<Field>)
    ensures forall f :: f in Without(s, gone) <==> f in s && f !in gone
    ensures |Without(s, gone)| <= |s|
  {
    if s != [] {
      WithoutMembers(s[1..], gone);
      assert forall f :: f in s <==> f == s[0] || f in s[1..];
    }
  }

  lemma {:induction false} WithoutDistinct(s: seq<Field>, gone: set<Field>)
    requires Distinct(s)
    ensures Distinct(Without(s, gone))
  {
    if s != [] {
      WithoutDistinct(s[1..], gone);
      WithoutMembers(s[1..], gone);
      forall i | 0 <= i < |s[1..]| ensures s[1..][i] != s[0] {
        assert s[i + 1] != s[0];
      }
    }
  }

  lemma {:induction false} WithoutNothing(s: seq<Field>, gone: set<Field>)
    requires forall f :: f in s ==> f !in gone
    ensures Without(s, gone) == s
  {
    if s != [] {
      assert s[0] in s;
      assert forall f :: f in s[1..] ==> f in s;
      WithoutNothing(s[1..], gone);
    }
  }

  lemma {:induction false} WithoutTwice(s: seq<Field>, a: set<Field>, b: set<Field>)
    ensures Without(Without(s, a), b) == Without(s, a + b)
  {
    if s != [] {
      WithoutTwice(s[1..], a, b);
      var rest := Without(s[1..], a);
      if s[0] !in a {
        assert ([s[0]] + rest)[1..] == rest;
      } else {
        assert Without(s, a) == rest;
      }
    }
  }

  // ----- what each script does -----

  ghost predicate WellFormed(v: View) {
    && Distinct(v.order)
    && (forall f :: f in v.order <==> f in v.records)
    && (v.version.None? ==> v == EMPTY)
    && (forall f :: f in v.records ==>
          v.version == Some(v.records[f].tokenVersion) && v.records[f].exp * 1000 <= v.deadlineMs)
  }

  /** A key past its deadline is gone, with everything in it. */
  function AtTime(v: View, now: nat): View {
    if v.version.Some? && Millis(now) > v.deadlineMs then EMPTY else v
  }

  function Drop(v: View, gone: set<Field>): View {
    v.(order := Without(v.order, gone), records := v.records - gone)
  }

  function Expired(v: View, now: nat): set<Field> {
    set f | f in v.records && v.records[f].exp <= Seconds(now)
  }

  function Prune(v: View, now: nat): View {
    Drop(v, Expired(v, now))
  }

  function Newest(order: seq<Field>, maximum: nat): seq<Field> {
    if |order| > maximum then order[|order| - maximum..] else order
  }

  function Restrict(records: map<Field, Record>, order: seq<Field>): map<Field, Record> {
    map f | f in records && f in order :: records[f]
  }

  /** Same-version live sessions survive, the new one is last, and only the newest `maximum` are kept. */
  function WithSession(v: View, now: nat, field: Field, record: Record, maximum: nat): View
    requires record.tokenVersion >= 0
  {
    var live := if v.version == Some(record.tokenVersion) then Prune(v, now) else EMPTY;
    var order := Newest(live.order + [field], maximum);
    View(Some(record.tokenVersion),
         if v.version.Some? then Max(record.exp * 1000, v.deadlineMs) else record.exp * 1000,
         order,
         Restrict(live.records[field := record], order))
  }

  function Activate(v: View, now: nat, field: Field, record: Record, maximum: int): (View, Activation) {
    if maximum < 1 || record.tokenVersion < 0 || record.exp <= Seconds(now) then (v, Invalid)
    else if v.version.Some? && v.version.value > record.tokenVersion then (v, Superseded)
    else if field in Prune(v, now).records then (Prune(v, now), Conflict)
    else (WithSession(v, now, field, record, maximum), Created)
  }

  predicate Live(v: View, now: nat, field: Field) {
    field in v.records && v.records[field].exp > Seconds(now)
  }

  function Revoke(v: View, now: nat, field: Field, record: Record): (View, Revocation) {
    if !Live(v, now, field) then (Drop(v, {field}), Absent)
    else if v.records[field] != record then (v, Mismatch)
    else (Drop(v, {field}), Removed)
  }

  function Read(v: View, now: nat, field: Field): (View, Option<Record>) {
    if Live(v, now, field) then (v, Some(v.records[field])) else (Drop(v, {field}), None)
  }

  function IssueTimes(records: map<Field, Record>, order: seq<Field>): seq<nat> {
    if order == [] then []
    else (if order[0] in records then [records[order[0]].iat] else []) + IssueTimes(records, order[1..])
  }

  /** Listing answers the issue times of the live sessions in login order. */
  function List(v: View, now: nat, version: nat): (View, seq<nat>) {
    if v.version != Some(version) then (v, [])
    else (Prune(v, now), IssueTimes(Prune(v, now).records, Prune(v, now).order))
  }

  // ----- every script keeps the view well formed -----

  lemma DropWellFormed(v: View, gone: set<Field>)
    requires WellFormed(v)
    ensures WellFormed(Drop(v, gone))
  {
    WithoutMembers(v.order, gone);
    WithoutDistinct(v.order, gone);
  }

  lemma WithSessionWellFormed(v: View, now: nat, field: Field, record: Record, maximum: nat)
    requires WellFormed(v) && record.tokenVersion >= 0 && field !in Prune(v, now).records
    ensures WellFormed(WithSession(v, now, field, record, maximum))
  {
    DropWellFormed(v, Expired(v, now));
    if v.version == Some(record.tokenVersion) {
      FiledLast(Prune(v, now), field, record, maximum, WithSession(v, now, field, record, maximum).deadlineMs);
    } else {
      FiledLast(EMPTY, field, record, maximum, WithSession(v, now, field, record, maximum).deadlineMs);
    }
  }

  lemma FiledLast(live: View, field: Field, record: Record, maximum: nat, deadlineMs: int)
    requires WellFormed(live) && record.tokenVersion >= 0 && field !in live.records
    requires live.version.Some? ==> live.version == Some(record.tokenVersion)
    requires deadlineMs >= record.exp * 1000 && (live.version.Some? ==> deadlineMs >= live.deadlineMs)
    ensures var order := Newest(live.order + [field], maximum);
            WellFormed(View(Some(record.tokenVersion), deadlineMs, order, Restrict(live.records[field := record], order)))
  {
    DistinctSuffix(live.order, field, maximum);
    hide Distinct, Newest;
  }

  lemma DistinctSuffix(s: seq<Field>, field: Field, maximum: nat)
    requires Distinct(s) && field !in s
    ensures Distinct(Newest(s + [field], maximum))
    ensures forall f :: f in Newest(s + [field], maximum) ==> f in s || f == field
  {
    assert Distinct(s + [field]);
  }

  lemma ActivateWellFormed(v: View, now: nat, field: Field, record: Record, maximum: int)
    requires WellFormed(v)
    ensures WellFormed(Activate(v, now, field, record, maximum).0)
  {
    DropWellFormed(v, Expired(v, now));
    hide WithSession, WellFormed;
    if Activate(v, now, field, record, maximum).1 == Created {
      WithSessionWellFormed(v, now, field, record, maximum);
    }
  }

  // ----- what each script answers, and when -----

  /** The arguments of an activation the script accepts at all. */
  predicate Activatable(now: nat, record: Record, maximum: int) {
    maximum >= 1 && record.tokenVersion >= 0 && record.exp > Seconds(now)
  }

  predicate Superseding(v: View, record: Record) {
    v.version.Some? && v.version.value > record.tokenVersion
  }

  /**
   An activation is superseded exactly by a greater stored version, conflicts
   exactly with a live session under its own id, and is created otherwise.
   */
  lemma ActivationAnswers(v: View, now: nat, field: Field, record: Record, maximum: int)
    ensures var code := Activate(v, now, field, record, maximum).1;
            && (code == Invalid <==> !Activatable(now, record, maximum))
            && (code == Superseded <==> Activatable(now, record, maximum) && Superseding(v, record))
            && (code == Conflict <==> Activatable(now, record, maximum) && !Superseding(v, record) && Live(v, now, field))
            && (code == Created <==> Activatable(now, record, maximum) && !Superseding(v, record) && !Live(v, now, field))
  {
    hide WithSession, Without;
  }

  /** All but the new session are live sessions of its version, with their own records. */
  ghost predicate OthersLive(v: View, now: nat, field: Field, record: Record, after: View) {
    forall f :: f in after.records && f != field ==>
      v.version == Some(record.tokenVersion) && Live(v, now, f) && after.records[f] == v.records[f]
  }

  /**
   A created session is the last one, with its own record, under its version
   and the later of its deadline and the stored one; all others are live
   sessions of the same version, and anything less than created files nothing.
   */
  lemma ActivationFiles(v: View, now: nat, field: Field, record: Record, maximum: int)
    requires WellFormed(v)
    ensures var (after, code) := Activate(v, now, field, record, maximum);
            if code == Created then
              && after.version == Some(record.tokenVersion)
              && after.deadlineMs == (if v.version.Some? && v.deadlineMs > record.exp * 1000 then v.deadlineMs else record.exp * 1000)
              && after.order != [] && after.order[|after.order| - 1] == field && |after.order| <= maximum
              && field in after.records && after.records[field] == record
              && OthersLive(v, now, field, record, after)
            else
              && after.version == v.version && after.deadlineMs == v.deadlineMs && KeepsRecords(v, after)
  {
    if Activate(v, now, field, record, maximum).1 == Created {
      ActivationIsLast(v, now, field, record, maximum);
    } else {
      ConflictOnlyPrunes(v, now, field, record, maximum);
    }
  }

  /** A revocation removes exactly a live session with the very record, and clears an expired one away. */
  lemma RevocationAnswers(v: View, now: nat, field: Field, record: Record)
    requires WellFormed(v)
    ensures var (after, code) := Revoke(v, now, field, record);
            && (code == Absent <==> !Live(v, now, field))
            && (code == Mismatch <==> Live(v, now, field) && v.records[field] != record)
            && (code == Removed <==> Live(v, now, field) && v.records[field] == record)
            && (if code == Mismatch then after == v else Removes(v, field, after))
  {
    WithoutMembers(v.order, {field});
  }

  /** Nothing but the session of that id is gone. */
  ghost predicate Removes(v: View, field: Field, after: View) {
    && after.version == v.version && after.deadlineMs == v.deadlineMs && after.records == v.records - {field}
    && forall f :: f in after.order <==> f in v.order && f != field
  }

  /** A read answers exactly the live session's record, and clears an expired one away. */
  lemma ReadAnswers(v: View, now: nat, field: Field)
    requires WellFormed(v)
    ensures var (after, found) := Read(v, now, field);
            && (found.Some? <==> Live(v, now, field)) && (found.Some? ==> found.value == v.records[field])
            && (if found.Some? then after == v else Removes(v, field, after))
  {
    WithoutMembers(v.order, {field});
  }

  lemma {:induction false} TimesInOrder(records: map<Field, Record>, order: seq<Field>)
    requires forall f :: f in order ==> f in records
    ensures |IssueTimes(records, order)| == |order|
    ensures forall i :: 0 <= i < |order| ==> IssueTimes(records, order)[i] == records[order[i]].iat
  {
    if order != [] {
      assert forall f :: f in order[1..] ==> f in order;
      assert order[0] in order;
      TimesInOrder(records, order[1..]);
      assert forall i :: 1 <= i < |order| ==> order[i] == order[1..][i - 1];
    }
  }

  /**
   A listing under the stored version answers one issue time for each live
   session, in login order, and leaves exactly the live sessions; under any
   other version it answers nothing and changes nothing.
   */
  lemma ListingAnswers(v: View, now: nat, version: nat) returns (live: seq<Field>)
    requires WellFormed(v)
    ensures var (after, times) := List(v, now, version);
            if v.version != Some(version) then after == v && times == []
            else && Subsequence(live, v.order) && Distinct(live) && (forall f :: f in live <==> Live(v, now, f))
                 && |times| == |live| && (forall i :: 0 <= i < |live| ==> live[i] in v.records && times[i] == v.records[live[i]].iat)
                 && after.order == live && after.version == v.version && after.deadlineMs == v.deadlineMs
                 && after.records.Keys == (set f | f in live) && forall f :: f in live ==> after.records[f] == v.records[f]
  {
    live := Prune(v, now).order;
    DropWellFormed(v, Expired(v, now));
    WithoutMembers(v.order, Expired(v, now));
    SubsequenceSelf(v.order);
    SubsequenceWithout(v.order, v.order, Expired(v, now));
    TimesInOrder(Prune(v, now).records, live);
    hide Subsequence, Without, IssueTimes;
    assert forall f :: f in live <==> Live(v, now, f);
  }

  // ----- what activation means for the sessions -----

  /** A new session reads back as filed, until it is revoked, which removes exactly it. */
  lemma ActivateReadRevoke(v: View, now: nat, field: Field, record: Record, maximum: int)
    requires WellFormed(v) && Activate(v, now, field, record, maximum).1 == Created
    ensures var after := Activate(v, now, field, record, maximum).0;
            && Read(after, now, field) == (after, Some(record))
            && var (revoked, code) := Revoke(after, now, field, record);
               code == Removed && Read(revoked, now, field).1 == None && revoked.records == after.records - {field}
  {
    ActivationIsLast(v, now, field, record, maximum);
  }

  lemma ActivationIsLast(v: View, now: nat, field: Field, record: Record, maximum: int)
    requires WellFormed(v) && Activate(v, now, field, record, maximum).1 == Created
    ensures var after := Activate(v, now, field, record, maximum).0;
            && after.order != [] && after.order[|after.order| - 1] == field
            && field in after.records && after.records[field] == record && |after.order| <= maximum
  {
    var live := if v.version == Some(record.tokenVersion) then Prune(v, now) else EMPTY;
    var order := Newest(live.order + [field], maximum);
    assert order[|order| - 1] == field;
    assert field in order;
  }

  /**
   Activation under the stored version drops only the oldest live sessions, and
   only when the limit is reached; everyone who stays keeps their record.
   */
  lemma ActivationKeepsNewest(v: View, now: nat, field: Field, record: Record, maximum: int, older: nat, newer: nat)
    requires WellFormed(v) && Activate(v, now, field, record, maximum).1 == Created
    requires v.version == Some(record.tokenVersion)
    requires older < newer < |Prune(v, now).order|
    ensures var live, after := Prune(v, now), Activate(v, now, field, record, maximum).0;
            && (live.order[older] in after.order ==> live.order[newer] in after.order)
            && (live.order[newer] !in after.order ==> |after.order| == maximum)
            && (live.order[newer] in after.order ==> live.order[newer] in after.records && live.order[newer] in v.records
                                                     && after.records[live.order[newer]] == v.records[live.order[newer]])
  {
    DropWellFormed(v, Expired(v, now));
    var live := Prune(v, now);
    var all := live.order + [field];
    assert live.order[newer] in live.order && live.order[newer] in live.records && all[newer] == live.order[newer];
    assert Distinct(all) by {
      assert field !in live.order;
    }
    NewestIsSuffix(all, maximum, older, newer);
    assert live.records[live.order[newer]] == v.records[live.order[newer]];
    assert live.order[newer] != field;
    hide Distinct, Newest, Prune, WellFormed;
  }

  lemma NewestIsSuffix(all: seq<Field>, maximum: nat, older: nat, newer: nat)
    requires Distinct(all) && older < newer < |all|
    ensures var kept := Newest(all, maximum);
            && (all[older] in kept ==> all[newer] in kept) && (all[newer] !in kept ==> |kept| == maximum)
  {
    if |all| > maximum {
      var kept := all[|all| - maximum..];
      assert newer >= |all| - maximum ==> kept[newer - (|all| - maximum)] == all[newer];
      if all[older] in kept {
        var k :| 0 <= k < |kept| && kept[k] == all[older];
        assert all[k + |all| - maximum] == all[older];
      }
    }
  }

  // ----- issuing with a retry on a taken id -----

  const ISSUANCE_ATTEMPTS: nat := 2

  // One attempt: how long after the previous one it reaches the registry, its fresh field, and the times it was signed with.
  datatype Attempt = Attempt(delay: nat, field: Field, iat: nat, exp: int)

  datatype IssueOutcome = Issued(field: Field) | VersionChanged | RegistryUnavailable | IssuanceConflict

  function RecordOf(user: nat, version: nat, attempt: Attempt): Record {
    Record(user, version, attempt.iat, attempt.exp)
  }

  function AttemptOnce(s: State, user: nat, version: nat, attempt: Attempt, maximum: int): (State, Activation) {
    var now := s.now + attempt.delay;
    var (view, code) := Activate(AtTime(s.view, now), now, attempt.field, RecordOf(user, version, attempt), maximum);
    (State(view, now), code)
  }

  /** The attempts in turn; the answer carries the view and the time at which the last one was made. */
  function Issue(s: State, user: nat, version: nat, attempts: seq<Attempt>, maximum: int): (State, IssueOutcome)
    decreases |attempts|
  {
    if attempts == [] then (s, IssuanceConflict)
    else
      var (next, code) := AttemptOnce(s, user, version, attempts[0], maximum);
      match code
      case Created => (next, Issued(attempts[0].field))
      case Superseded => (next, VersionChanged)
      case Invalid => (next, RegistryUnavailable)
      case Conflict => Issue(next, user, version, attempts[1..], maximum)
  }

  lemma AllAttempts(attempts: seq<Attempt>)
    ensures attempts[0..] == attempts
  {
  }

  lemma AttemptAnswers(s: State, user: nat, version: nat, attempts: seq<Attempt>, k: nat, maximum: int)
    requires k < |attempts|
    ensures var (next, code) := AttemptOnce(s, user, version, attempts[k], maximum);
            Issue(s, user, version, attempts[k..], maximum)
            == match code
               case Created => (next, Issued(attempts[k].field))
               case Superseded => (next, VersionChanged)
               case Invalid => (next, RegistryUnavailable)
               case Conflict => Issue(next, user, version, attempts[k + 1..], maximum)
  {
    hide AttemptOnce;
    assert attempts[k..][0] == attempts[k] && attempts[k..][1..] == attempts[k + 1..];
  }

  lemma NoAttempts(s: State, user: nat, version: nat, attempts: seq<Attempt>, maximum: int)
    ensures Issue(s, user, version, attempts[|attempts|..], maximum) == (s, IssuanceConflict)
  {
  }

  /** Pruning now and again later removes what pruning later alone removes. */
  lemma PruneTwice(v: View, early: nat, late: nat)
    requires early <= late
    ensures Prune(Prune(v, early), late) == Prune(v, late)
  {
    var first, second := Expired(v, early), Expired(Prune(v, early), late);
    assert Seconds(early) <= Seconds(late);
    assert first + second == Expired(v, late);
    WithoutTwice(v.order, first, second);
    assert v.records - first - second == v.records - (first + second);
  }

  lemma AtTimeTwice(v: View, early: nat, late: nat)
    requires early <= late
    ensures AtTime(AtTime(v, early), late) == AtTime(v, late)
  {
    assert Millis(early) <= Millis(late);
  }

  /** A view pruned earlier activates like the one that was not. */
  lemma ActivateAfterPrune(v: View, early: nat, late: nat, field: Field, record: Record, maximum: int)
    requires early <= late && Activate(AtTime(Prune(v, early), late), late, field, record, maximum).1 == Created
    ensures Activate(AtTime(v, late), late, field, record, maximum)
         == Activate(AtTime(Prune(v, early), late), late, field, record, maximum)
  {
    PruneTwice(v, early, late);
    assert Prune(v, early).version == v.version && Prune(v, early).deadlineMs == v.deadlineMs;
    hide Prune;
  }

  lemma ConflictOnlyPrunes(v: View, now: nat, field: Field, record: Record, maximum: int)
    ensures var (view, code) := Activate(v, now, field, record, maximum);
            && (code == Conflict ==> view == Prune(v, now)) && (code == Superseded || code == Invalid ==> view == v)
  {
    hide Prune, WithSession;
  }

  ghost predicate KeepsRecords(v: View, later: View) {
    forall f :: f in later.records ==> f in v.records && later.records[f] == v.records[f]
  }

  /**
   However many attempts it takes, issuing is one activation, at the time of
   the attempt that succeeds and with that attempt's own record, or it
   registers nothing.
   */
  lemma {:induction false} IssueIsOneActivation(s: State, user: nat, version: nat, attempts: seq<Attempt>, maximum: int)
    returns (k: nat)
    ensures var (after, outcome) := Issue(s, user, version, attempts, maximum);
            && after.now >= s.now
            && (outcome.Issued? ==>
                  && k < |attempts| && outcome.field == attempts[k].field
                  && Activate(AtTime(s.view, after.now), after.now, outcome.field, RecordOf(user, version, attempts[k]), maximum)
                     == (after.view, Created))
            && (!outcome.Issued? ==> KeepsRecords(s.view, after.view))
    decreases |attempts|
  {
    hide *;
    k := 0;
    IssueUnfolds(s, user, version, attempts, maximum);
    if attempts != [] {
      var now := s.now + attempts[0].delay;
      if AttemptOnce(s, user, version, attempts[0], maximum).1 == Conflict {
        var next := AttemptOnce(s, user, version, attempts[0], maximum).0;
        var later := IssueIsOneActivation(next, user, version, attempts[1..], maximum);
        var (after, outcome) := Issue(next, user, version, attempts[1..], maximum);
        if outcome.Issued? {
          ActivatedAfterConflict(s.view, now, after.now, outcome.field, RecordOf(user, version, attempts[1..][later]), maximum);
          k := later + 1;
          assert attempts[1..][later] == attempts[k];
        } else {
          KeptTwice(s.view, next.view, after.view);
        }
      }
    }
  }

  lemma IssueUnfolds(s: State, user: nat, version: nat, attempts: seq<Attempt>, maximum: int)
    ensures attempts == [] ==> Issue(s, user, version, attempts, maximum) == (s, IssuanceConflict)
    ensures attempts != [] ==>
              var now := s.now + attempts[0].delay;
              var record := RecordOf(user, version, attempts[0]);
              var (next, code) := AttemptOnce(s, user, version, attempts[0], maximum);
              && next.now == now
              && Activate(AtTime(s.view, now), now, attempts[0].field, record, maximum) == (next.view, code)
              && (code == Conflict ==> next.view == Prune(AtTime(s.view, now), now))
              && (code != Created ==> KeepsRecords(s.view, next.view))
              && Issue(s, user, version, attempts, maximum) ==
                 match code
                 case Created => (next, Issued(attempts[0].field))
                 case Superseded => (next, VersionChanged)
                 case Invalid => (next, RegistryUnavailable)
                 case Conflict => Issue(next, user, version, attempts[1..], maximum)
    ensures KeepsRecords(s.view, s.view)
  {
    if attempts != [] {
      var now := s.now + attempts[0].delay;
      ConflictOnlyPrunes(AtTime(s.view, now), now, attempts[0].field, RecordOf(user, version, attempts[0]), maximum);
      hide Activate;
    }
  }

  lemma ActivatedAfterConflict(v: View, early: nat, late: nat, field: Field, record: Record, maximum: int)
    requires early <= late
    requires Activate(AtTime(Prune(AtTime(v, early), early), late), late, field, record, maximum).1 == Created
    ensures Activate(AtTime(v, late), late, field, record, maximum)
         == Activate(AtTime(Prune(AtTime(v, early), early), late), late, field, record, maximum)
  {
    hide Prune, Activate;
    ActivateAfterPrune(AtTime(v, early), early, late, field, record, maximum);
    AtTimeTwice(v, early, late);
    hide AtTime;
  }

  /**
   What each answer of the issuing loop tells the caller: the stored version
   has moved past the login's; some attempt's arguments were unusable; every
   id was taken.  A first id that is not live goes through at once.
   */
  lemma {:induction false} IssueAnswers(s: State, user: nat, version: nat, attempts: seq<Attempt>, maximum: int)
    ensures var (after, outcome) := Issue(s, user, version, attempts, maximum);
            && (outcome == VersionChanged ==> after.view.version.Some? && after.view.version.value > version)
            && (outcome == RegistryUnavailable ==> maximum < 1 || exists a :: a in attempts && a.exp <= Seconds(after.now))
            && (outcome == IssuanceConflict ==> forall a :: a in attempts ==> a.field in s.view.records)
            && (attempts != [] ==>
                  var now := s.now + attempts[0].delay;
                  var v := AtTime(s.view, now);
                  && maximum >= 1 && attempts[0].exp > Seconds(now) && (v.version.Some? ==> v.version.value <= version)
                  && !Live(v, now, attempts[0].field)
                  ==> outcome == Issued(attempts[0].field) && after.now == now)
    decreases |attempts|
  {
    hide *;
    IssueUnfolds(s, user, version, attempts, maximum);
    if attempts != [] {
      FirstAttempt(s, user, version, attempts[0], maximum);
      var (next, code) := AttemptOnce(s, user, version, attempts[0], maximum);
      if code == Conflict {
        IssueAnswers(next, user, version, attempts[1..], maximum);
        TakenBefore(s, next, attempts, Issue(next, user, version, attempts[1..], maximum).1 == IssuanceConflict);
        assert forall a :: a in attempts[1..] ==> a in attempts;
      } else {
        assert attempts[0] in attempts;
      }
    }
  }

  lemma FirstAttempt(s: State, user: nat, version: nat, attempt: Attempt, maximum: int)
    ensures var now := s.now + attempt.delay;
            var v := AtTime(s.view, now);
            var (next, code) := AttemptOnce(s, user, version, attempt, maximum);
            && next.now == now
            && (code == Superseded <==>
                maximum >= 1 && attempt.exp > Seconds(now) && v.version.Some? && v.version.value > version)
            && (code == Superseded ==> next.view.version == v.version)
            && (code == Invalid <==> maximum < 1 || attempt.exp <= Seconds(now))
            && (code == Conflict <==> maximum >= 1 && attempt.exp > Seconds(now)
                                      && (v.version.Some? ==> v.version.value <= version) && Live(v, now, attempt.field))
            && (code == Conflict ==> KeepsRecords(s.view, next.view) && attempt.field in s.view.records)
  {
    var now := s.now + attempt.delay;
    var record := RecordOf(user, version, attempt);
    ActivationAnswers(AtTime(s.view, now), now, attempt.field, record, maximum);
    ConflictOnlyPrunes(AtTime(s.view, now), now, attempt.field, record, maximum);
    hide Activate, Without;
  }

  lemma TakenBefore(s: State, next: State, attempts: seq<Attempt>, taken: bool)
    requires attempts != [] && KeepsRecords(s.view, next.view) && attempts[0].field in s.view.records
    requires taken ==> forall a :: a in attempts[1..] ==> a.field in next.view.records
    ensures taken ==> forall a :: a in attempts ==> a.field in s.view.records
  {
    assert forall a :: a in attempts ==> a == attempts[0] || a in attempts[1..];
  }

  lemma KeptTwice(a: View, b: View, c: View)
    requires KeepsRecords(a, b) && KeepsRecords(b, c)
    ensures KeepsRecords(a, c)
  {
  }

  // ----- runs -----

  datatype Event =
    | ActivateEvent(field: Field, record: Record, maximum: int)
    | RevokeEvent(field: Field, record: Record)
    | ReadEvent(field: Field)
    | ListEvent(version: nat)
    | PassTime(us: nat)

  datatype State = State(view: View, now: nat)

  function Step(s: State, e: Event): State {
    match e
    case ActivateEvent(f, record, maximum) => s.(view := Activate(s.view, s.now, f, record, maximum).0)
    case RevokeEvent(f, record) => s.(view := Revoke(s.view, s.now, f, record).0)
    case ReadEvent(f) => s.(view := Read(s.view, s.now, f).0)
    case ListEvent(version) => s.(view := List(s.view, s.now, version).0)
    case PassTime(us) => State(AtTime(s.view, s.now + us), s.now + us)
  }

  lemma StepWellFormed(s: State, e: Event)
    requires WellFormed(s.view)
    ensures WellFormed(Step(s, e).view)
    ensures Step(s, e).now >= s.now
  {
    hide WellFormed;
    match e
    case ActivateEvent(f, record, maximum) => ActivateWellFormed(s.view, s.now, f, record, maximum);
    case RevokeEvent(f, record) => DropWellFormed(s.view, {f});
    case ReadEvent(f) => DropWellFormed(s.view, {f});
    case ListEvent(version) => DropWellFormed(s.view, Expired(s.view, s.now));
    case PassTime(us) => EmptyWellFormed();
  }

  lemma EmptyWellFormed()
    ensures WellFormed(EMPTY)
  {
  }

  function Run(s: State, events: seq<Event>): State
    decreases |events|
  {
    if events == [] then s else Run(Step(s, events[0]), events[1..])
  }

  lemma {:induction false} RunWellFormed(s: State, events: seq<Event>)
    requires WellFormed(s.view)
    ensures WellFormed(Run(s, events).view) && Run(s, events).now >= s.now
    decreases |events|
  {
    if events != [] {
      StepWellFormed(s, events[0]);
      RunWellFormed(Step(s, events[0]), events[1..]);
    }
  }

  // ----- the version high-water mark -----

  /** The keys are alive, guard at least `version`, and will do so at least until `deadlineMs`. */
  ghost predicate Guards(v: View, version: int, deadlineMs: int) {
    v.version.Some? && v.version.value >= version && v.deadlineMs >= deadlineMs
  }

  lemma StepKeepsGuard(s: State, e: Event, version: int, deadlineMs: int)
    requires WellFormed(s.view) && Guards(s.view, version, deadlineMs)
    requires Millis(Step(s, e).now) <= deadlineMs
    ensures Guards(Step(s, e).view, version, deadlineMs)
  {
  }

  lemma {:induction false} RunKeepsGuard(s: State, events: seq<Event>, version: int, deadlineMs: int)
    requires WellFormed(s.view) && Guards(s.view, version, deadlineMs)
    requires Millis(Run(s, events).now) <= deadlineMs
    ensures Guards(Run(s, events).view, version, deadlineMs)
    decreases |events|
  {
    if events != [] {
      var next := Step(s, events[0]);
      StepWellFormed(s, events[0]);
      RunWellFormed(next, events[1..]);
      hide Step, WellFormed, Guards;
      StepKeepsGuard(s, events[0], version, deadlineMs);
      RunKeepsGuard(next, events[1..], version, deadlineMs);
    }
  }

  /**
   Once a session of some version is activated, every activation of a lower
   version is refused without any change until that session's own deadline has
   passed, whatever the registry is asked in between; and until then neither
   the stored version nor the key deadline moves back.
   */
  lemma VersionHighWaterMark(s: State, field: Field, record: Record, maximum: int, between: seq<Event>,
                             late: Field, lower: Record, lateMaximum: int)
    requires WellFormed(s.view)
    requires Activate(s.view, s.now, field, record, maximum).1 == Created
    requires lower.tokenVersion < record.tokenVersion
    requires Millis(Run(Step(s, ActivateEvent(field, record, maximum)), between).now) <= record.exp * 1000
    ensures var later := Run(Step(s, ActivateEvent(field, record, maximum)), between);
            && Guards(later.view, record.tokenVersion, record.exp * 1000)
            && var (view, code) := Activate(later.view, later.now, late, lower, lateMaximum);
               view == later.view && (code == Superseded || code == Invalid)
  {
    var next := Step(s, ActivateEvent(field, record, maximum));
    StepWellFormed(s, ActivateEvent(field, record, maximum));
    assert Guards(next.view, record.tokenVersion, record.exp * 1000);
    RunKeepsGuard(next, between, record.tokenVersion, record.exp * 1000);
  }

  /** While the keys live, their version and deadline never move back. */
  lemma NeverMovesBack(s: State, events: seq<Event>)
    requires WellFormed(s.view) && s.view.version.Some?
    requires Millis(Run(s, events).now) <= s.view.deadlineMs
    ensures Guards(Run(s, events).view, s.view.version.value, s.view.deadlineMs)
  {
    RunKeepsGuard(s, events, s.view.version.value, s.view.deadlineMs);
  }

  /** A live session can be neither expired with its keys nor outlive them. */
  lemma LiveSessionsOutliveNothing(s: State, us: nat, field: Field)
    requires WellFormed(s.view) && field in s.view.records
    requires s.view.records[field].exp > Seconds(s.now + us)
    ensures Step(s, PassTime(us)).view == s.view
  {
    var now := s.now + us;
    assert Millis(now) / 1000 == Seconds(now);
  }

  // ----- login order -----

  ghost predicate Subsequence(a: seq<Field>, b: seq<Field>)
    decreases |b|
  {
    a == [] || (b != [] && ((a[0] == b[0] && Subsequence(a[1..], b[1..])) || Subsequence(a, b[1..])))
  }

  lemma {:induction false} SubsequenceSelf(a: seq<Field>)
    ensures Subsequence(a, a)
  {
    if a != [] {
      SubsequenceSelf(a[1..]);
    }
  }

  lemma {:induction false} SubsequenceTail(a: seq<Field>, b: seq<Field>)
    requires a != [] && Subsequence(a, b)
    ensures Subsequence(a[1..], b)
    decreases |b|
  {
    if a[0] == b[0] && Subsequence(a[1..], b[1..]) {
    } else {
      SubsequenceTail(a, b[1..]);
    }
  }

  lemma {:induction false} SubsequenceWithout(a: seq<Field>, b: seq<Field>, gone: set<Field>)
    requires Subsequence(a, b)
    ensures Subsequence(Without(a, gone), b)
    decreases |b|
  {
    if a != [] {
      if a[0] == b[0] && Subsequence(a[1..], b[1..]) {
        SubsequenceWithout(a[1..], b[1..], gone);
        var rest := Without(a[1..], gone);
        if a[0] in gone {
          assert Without(a, gone) == rest;
        } else {
          assert Without(a, gone)[1..] == rest;
        }
      } else {
        SubsequenceWithout(a, b[1..], gone);
      }
    }
  }

  lemma {:induction false} SubsequenceAppend(a: seq<Field>, b: seq<Field>, f: Field)
    requires Subsequence(a, b)
    ensures Subsequence(a, b + [f]) && Subsequence(a + [f], b + [f])
    decreases |b|
  {
    if b == [] {
      assert a == [];
    } else {
      assert (b + [f])[1..] == b[1..] + [f];
      if a == [] {
        SubsequenceAppend([], b[1..], f);
      } else if a[0] == b[0] && Subsequence(a[1..], b[1..]) {
        SubsequenceAppend(a[1..], b[1..], f);
        assert (a + [f])[1..] == a[1..] + [f];
      } else {
        SubsequenceAppend(a, b[1..], f);
      }
    }
  }

  lemma {:induction false} SubsequenceSuffix(a: seq<Field>, b: seq<Field>, k: nat)
    requires k <= |a| && Subsequence(a, b)
    ensures Subsequence(a[k..], b)
    decreases k
  {
    if k == 0 {
      assert a[0..] == a;
    } else {
      SubsequenceTail(a, b);
      SubsequenceSuffix(a[1..], b, k - 1);
      assert a[1..][k - 1..] == a[k..];
    }
  }

  /** The fields activated by a run, in the order of their logins. */
  function Logins(s: State, events: seq<Event>): seq<Field>
    decreases |events|
  {
    if events == [] then []
    else LoginOf(s, events[0]) + Logins(Step(s, events[0]), events[1..])
  }

  function LoginOf(s: State, e: Event): seq<Field> {
    if e.ActivateEvent? && Activate(s.view, s.now, e.field, e.record, e.maximum).1 == Created then [e.field] else []
  }

  lemma ActivationKeepsLoginOrder(v: View, now: nat, field: Field, record: Record, maximum: int, log: seq<Field>)
    requires Subsequence(v.order, log)
    ensures var (after, code) := Activate(v, now, field, record, maximum);
            Subsequence(after.order, if code == Created then log + [field] else log)
  {
    SubsequenceWithout(v.order, log, Expired(v, now));
    var live := if v.version == Some(record.tokenVersion) then Prune(v, now).order else [];
    SubsequenceAppend(live, log, field);
    var order := live + [field];
    if maximum >= 1 && |order| > maximum {
      SubsequenceSuffix(order, log + [field], |order| - maximum);
    }
    hide Subsequence, Without;
  }

  lemma StepKeepsLoginOrder(s: State, e: Event, log: seq<Field>)
    requires Subsequence(s.view.order, log)
    ensures Subsequence(Step(s, e).view.order, log + LoginOf(s, e))
  {
    match e
    case ActivateEvent(f, record, maximum) =>
      assert log + [] == log;
      ActivationKeepsLoginOrder(s.view, s.now, f, record, maximum, log);
    case RevokeEvent(f, record) =>
      SubsequenceWithout(s.view.order, log, {f});
      assert log + [] == log;
    case ReadEvent(f) =>
      SubsequenceWithout(s.view.order, log, {f});
      assert log + [] == log;
    case ListEvent(version) =>
      SubsequenceWithout(s.view.order, log, Expired(s.view, s.now));
      assert log + [] == log;
    case PassTime(us) =>
      assert log + [] == log;
  }

  /** Whatever is still registered stands in the order of the logins that registered it. */
  lemma {:induction false} RegisteredInLoginOrder(s: State, events: seq<Event>, log: seq<Field>)
    requires Subsequence(s.view.order, log)
    ensures Subsequence(Run(s, events).view.order, log + Logins(s, events))
    decreases |events|
  {
    if events == [] {
      assert log + [] == log;
    } else {
      StepKeepsLoginOrder(s, events[0], log);
      hide Step, LoginOf;
      RegisteredInLoginOrder(Step(s, events[0]), events[1..], log + LoginOf(s, events[0]));
      assert log + LoginOf(s, events[0]) + Logins(Step(s, events[0]), events[1..]) == log + Logins(s, events);
    }
  }

  /** From any state, the registry holds a part of what it held followed by the run's logins, in that order. */
  lemma RegistryFollowsLogins(s: State, events: seq<Event>)
    ensures Subsequence(Run(s, events).view.order, s.view.order + Logins(s, events))
  {
    SubsequenceSelf(s.view.order);
    RegisteredInLoginOrder(s, events, s.view.order);
  }
}
