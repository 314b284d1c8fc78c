/**
 The three keys of one user's registry, changed in place by four atomic
 scripts.  A hash holds the version mark and the records, one sorted set orders
 the fields by login, another by expiry; an empty sorted set does not exist.
 */
module SessionRegistry {
  import opened Wrappers
  import opened Sessions

  // ----- the keys as a value, with the log of fields in login order -----

  datatype Keys = Keys(
    version: Option<nat>,
    records: map<Field, Record>,
    recordsDeadline: int,
    order: map<Field, int>,
    orderDeadline: int,
    expires: map<Field, int>,
    expiresDeadline: int,
    log: seq<Field>
  ) {
    /** What the three keys stand for. */
    ghost function Contents(): View {
      if version.None? then EMPTY else View(version, recordsDeadline, log, records)
    }

    /** The three keys list the same sessions, scores rise along the log, and all keys share one deadline. */
    ghost predicate Agree() {
      && WellFormed(Contents())
      && order.Keys == expires.Keys == records.Keys
      && (version.None? ==> records == map[] && log == [])
      && ScoresRise(log, order)
      && (forall f :: f in records ==> expires[f] == records[f].exp)
      && (records != map[] ==> orderDeadline == recordsDeadline == expiresDeadline)
    }

    /** The keys after removing each of `gone` from all three. */
    ghost function Minus(gone: set<Field>): Keys {
      this.(records := records - gone, order := order - gone, expires := expires - gone, log := Without(log, gone))
    }
  }

  ghost predicate ScoresRise(s: seq<Field>, scores: map<Field, int>) {
    forall i, j :: 0 <= i < j < |s| && s[i] in scores && s[j] in scores ==> scores[s[i]] < scores[s[j]]
  }

  /** Removing fields leaves the others' scores rising along the shorter log. */
  lemma {:induction false} RemovalKeepsScores(s: seq<Field>, gone: set<Field>, scores: map<Field, int>)
    requires ScoresRise(s, scores)
    ensures ScoresRise(Without(s, gone), scores - gone)
  {
    if s != [] {
      forall i, j | 0 <= i < j < |s[1..]| && s[1..][i] in scores && s[1..][j] in scores
        ensures scores[s[1..][i]] < scores[s[1..][j]]
      {
        assert s[1..][i] == s[i + 1] && s[1..][j] == s[j + 1];
      }
      RemovalKeepsScores(s[1..], gone, scores);
      var rest := Without(s[1..], gone);
      WithoutMembers(s[1..], gone);
      forall j | 0 <= j < |rest| && s[0] in scores && rest[j] in scores ensures scores[s[0]] < scores[rest[j]] {
        assert rest[j] in s[1..];
        var k :| 1 <= k < |s| && s[k] == rest[j];
      }
    }
  }

  lemma RemovalAgrees(k: Keys, gone: set<Field>)
    requires k.Agree()
    ensures k.Minus(gone).Agree()
    ensures k.Minus(gone).Contents() == Drop(k.Contents(), gone)
  {
    RemovalKeepsScores(k.log, gone, k.order);
    DropWellFormed(k.Contents(), gone);
    assert k.Minus(gone).Contents() == Drop(k.Contents(), gone);
  }

  lemma MinusTwice(k: Keys, a: set<Field>, b: set<Field>)
    ensures k.Minus(a).Minus(b) == k.Minus(a + b)
  {
    WithoutTwice(k.log, a, b);
    assert k.records - a - b == k.records - (a + b);
    assert k.order - a - b == k.order - (a + b);
    assert k.expires - a - b == k.expires - (a + b);
  }

  lemma MinusNothing(k: Keys)
    ensures k.Minus({}) == k
  {
    WithoutNothing(k.log, {});
    assert k.records - {} == k.records && k.order - {} == k.order && k.expires - {} == k.expires;
  }

  lemma {:induction false} DistinctCount(s: seq<Field>, fields: set<Field>)
    requires Distinct(s) && forall f :: f in s <==> f in fields
    ensures |s| == |fields|
  {
    if s == [] {
      assert fields == {};
    } else {
      assert forall f :: f in s <==> f == s[0] || f in s[1..];
      forall i | 0 <= i < |s[1..]| ensures s[1..][i] != s[0] {
        assert s[i + 1] != s[0];
      }
      DistinctCount(s[1..], fields - {s[0]});
    }
  }

  lemma LogCounts(k: Keys)
    requires k.Agree()
    ensures |k.order| == |k.log| == |k.Contents().order|
  {
    DistinctCount(k.log, k.order.Keys);
  }

  lemma LogMembers(k: Keys)
    requires k.Agree()
    ensures forall f :: f in k.log <==> f in k.order
    ensures k.version.Some? ==> k.Contents() == View(k.version, k.recordsDeadline, k.log, k.records)
  {
  }

  // ----- scores -----

  lemma HasGreatest(scores: map<Field, int>, fields: set<Field>) returns (top: Field)
    requires fields != {} && fields <= scores.Keys
    ensures top in fields && forall g :: g in fields ==> scores[g] <= scores[top]
    decreases fields
  {
    var some :| some in fields;
    if fields == {some} {
      top := some;
    } else {
      var best := HasGreatest(scores, fields - {some});
      top := if scores[best] < scores[some] then some else best;
    }
  }

  lemma HasLeast(scores: map<Field, int>, fields: set<Field>) returns (bottom: Field)
    requires fields != {} && fields <= scores.Keys
    ensures bottom in fields && forall g :: g in fields ==> scores[bottom] <= scores[g]
    decreases fields
  {
    var some :| some in fields;
    if fields == {some} {
      bottom := some;
    } else {
      var best := HasLeast(scores, fields - {some});
      bottom := if scores[some] < scores[best] then some else best;
    }
  }

  lemma GreatestScore(scores: map<Field, int>)
    requires scores != map[]
    ensures exists f :: f in scores && forall g :: g in scores ==> scores[g] <= scores[f]
  {
    assert scores.Keys != {};
    var top := HasGreatest(scores, scores.Keys);
  }

  lemma LeastScore(scores: map<Field, int>)
    requires scores != map[]
    ensures exists f :: f in scores && forall g :: g in scores ==> scores[f] <= scores[g]
  {
    assert scores.Keys != {};
    var bottom := HasLeast(scores, scores.Keys);
  }

  /** The scores of the fields from position `n` of the log on. */
  ghost function ScoresFrom(scores: map<Field, int>, log: seq<Field>, n: nat): map<Field, int>
    requires n <= |log|
  {
    map f | f in scores && f in log[n..] :: scores[f]
  }

  ghost predicate Ranked(scores: map<Field, int>, log: seq<Field>) {
    Distinct(log) && ScoresRise(log, scores) && forall f :: f in log <==> f in scores
  }

  lemma AllScores(scores: map<Field, int>, log: seq<Field>)
    requires Ranked(scores, log)
    ensures ScoresFrom(scores, log, 0) == scores
    ensures ScoresFrom(scores, log, |log|) == map[]
  {
    assert log[0..] == log;
  }

  lemma TakeNext(log: seq<Field>, n: nat)
    requires n < |log| && Distinct(log)
    ensures forall f :: f in log[n + 1..] <==> f in log[n..] && f != log[n]
    ensures log[..n + 1] == log[..n] + [log[n]]
  {
    assert log[n..] == [log[n]] + log[n + 1..];
    assert log[n] !in log[n + 1..];
  }

  lemma EarlierIsLower(scores: map<Field, int>, log: seq<Field>, n: nat, i: nat)
    requires n <= i < |log| && Ranked(scores, log)
    ensures log[n] in scores && log[i] in scores
    ensures scores[log[n]] < scores[log[i]] || n == i
    ensures log[n] in ScoresFrom(scores, log, n)
  {
    assert log[n] in log && log[i] in log && log[n] in log[n..];
  }

  /** The lowest of those scores belongs to the next field of the log. */
  lemma LeastIsNext(scores: map<Field, int>, log: seq<Field>, n: nat, least: Field)
    requires n <= |log| && Ranked(scores, log) && least in ScoresFrom(scores, log, n)
    requires forall g :: g in ScoresFrom(scores, log, n) ==> scores[least] <= scores[g]
    ensures n < |log| && log[n] == least
    ensures ScoresFrom(scores, log, n) - {least} == ScoresFrom(scores, log, n + 1)
    ensures log[..n + 1] == log[..n] + [least]
  {
    hide ScoresRise;
    var i :| n <= i < |log| && log[i] == least;
    EarlierIsLower(scores, log, n, i);
    TakeNext(log, n);
  }

  /** The members of a sorted set, lowest score first. */
  method ByScore(order: map<Field, int>, ghost log: seq<Field>) returns (entries: seq<Field>)
    requires Ranked(order, log)
    ensures entries == log
  {
    hide Ranked, ScoresFrom;
    AllScores(order, log);
    var rest := order;
    entries := [];
    while rest != map[]
      invariant |entries| <= |log| && entries == log[..|entries|]
      invariant rest == ScoresFrom(order, log, |entries|)
      invariant forall f :: f in rest ==> f in order && rest[f] == order[f]
      decreases |rest|
    {
      LeastScore(rest);
      var least :| least in rest && forall g :: g in rest ==> rest[least] <= rest[g];
      LeastIsNext(order, log, |entries|, least);
      rest := rest - {least};
      entries := entries + [least];
    }
    if |entries| < |log| {
      SomethingLeft(order, log, |entries|);
    }
  }

  lemma SomethingLeft(scores: map<Field, int>, log: seq<Field>, n: nat)
    requires n < |log| && Ranked(scores, log)
    ensures ScoresFrom(scores, log, n) != map[]
  {
    assert log[n] in log[n..] && log[n] in log;
    assert log[n] in ScoresFrom(scores, log, n);
  }

  // ----- evicting the oldest -----

  ghost function Oldest(log: seq<Field>, count: nat): set<Field>
    requires count <= |log|
  {
    set f | f in log[..count]
  }

  lemma {:induction false} WithoutOldest(log: seq<Field>, count: nat)
    requires count <= |log| && Distinct(log)
    ensures Without(log, Oldest(log, count)) == log[count..]
    decreases count
  {
    if count == 0 {
      WithoutNothing(log, {});
      assert Oldest(log, 0) == {} && log[0..] == log;
    } else {
      TakeNext(log, count - 1);
      WithoutOldest(log, count - 1);
      var rest := log[count - 1..];
      assert Oldest(log, count) == Oldest(log, count - 1) + {rest[0]};
      WithoutTwice(log, Oldest(log, count - 1), {rest[0]});
      WithoutNothing(rest[1..], {rest[0]});
      assert rest[1..] == log[count..];
    }
  }

  lemma LogRanks(k: Keys)
    requires k.Agree()
    ensures Ranked(k.order, k.log)
  {
    LogMembers(k);
  }

  lemma RemainingScores(scores: map<Field, int>, log: seq<Field>, count: nat)
    requires count <= |log| && Ranked(scores, log)
    ensures scores - Oldest(log, count) == ScoresFrom(scores, log, count)
  {
    OldestSplit(log, count);
  }

  lemma LeastRemaining(scores: map<Field, int>, log: seq<Field>, count: nat, least: Field)
    requires count <= |log| && Ranked(scores, log)
    requires var rest := scores - Oldest(log, count);
             least in rest && forall g :: g in rest ==> rest[least] <= rest[g]
    ensures count < |log| && Oldest(log, count + 1) == Oldest(log, count) + {least}
  {
    RemainingScores(scores, log, count);
    var rest := scores - Oldest(log, count);
    assert forall g :: g in rest ==> rest[g] == scores[g];
    LeastIsNext(scores, log, count, least);
  }

  /** Removing the member of lowest score from the keys removes the session of the earliest login. */
  lemma EvictNext(k: Keys, count: nat, least: Field)
    requires k.Agree() && count <= |k.log|
    requires var scores := k.Minus(Oldest(k.log, count)).order;
             least in scores && forall g :: g in scores ==> scores[least] <= scores[g]
    ensures count < |k.log|
    ensures k.Minus(Oldest(k.log, count)).Minus({least}) == k.Minus(Oldest(k.log, count + 1))
  {
    LogRanks(k);
    LeastRemaining(k.order, k.log, count, least);
    MinusTwice(k, Oldest(k.log, count), {least});
  }

  lemma OldestSplit(log: seq<Field>, count: nat)
    requires count <= |log| && Distinct(log)
    ensures forall f :: f in log[count..] <==> f in log && f !in Oldest(log, count)
  {
    WithoutOldest(log, count);
    WithoutMembers(log, Oldest(log, count));
  }

  lemma EvictedSize(k: Keys, count: nat)
    requires k.Agree() && count <= |k.log|
    ensures |k.Minus(Oldest(k.log, count)).order| == |k.log| - count
  {
    RemovalAgrees(k, Oldest(k.log, count));
    LogCounts(k.Minus(Oldest(k.log, count)));
    WithoutOldest(k.log, count);
  }

  lemma NoneEvicted(k: Keys)
    ensures k.Minus(Oldest(k.log, 0)) == k
  {
    MinusNothing(k);
    assert Oldest(k.log, 0) == {};
  }

  lemma DropOldest(v: View, count: nat, maximum: nat)
    requires WellFormed(v) && count <= |v.order|
    requires |v.order| - count <= maximum && (count > 0 ==> |v.order| - count == maximum)
    ensures Drop(v, Oldest(v.order, count))
         == v.(order := Newest(v.order, maximum), records := Restrict(v.records, Newest(v.order, maximum)))
  {
    WithoutOldest(v.order, count);
    OldestSplit(v.order, count);
    assert Newest(v.order, maximum) == v.order[count..];
    assert v.records - Oldest(v.order, count) == Restrict(v.records, v.order[count..]);
  }

  lemma EvictedIsNewest(k: Keys, count: nat, maximum: nat)
    requires k.Agree() && k.version.Some? && count <= |k.log|
    requires |k.log| - count <= maximum && (count > 0 ==> |k.log| - count == maximum)
    ensures k.Minus(Oldest(k.log, count)).Agree()
    ensures var all := k.Contents();
            k.Minus(Oldest(k.log, count)).Contents() ==
            all.(order := Newest(all.order, maximum), records := Restrict(all.records, Newest(all.order, maximum)))
  {
    RemovalAgrees(k, Oldest(k.log, count));
    hide Keys.Minus, Oldest, ScoresRise;
    DropOldest(k.Contents(), count, maximum);
  }

  lemma PrunedIsLive(v: View, now: nat)
    ensures forall f :: f in Prune(v, now).records ==> Prune(v, now).records[f].exp > Seconds(now)
  {
  }

  // ----- filing a new session -----

  ghost function Forgotten(k: Keys): Keys {
    k.(version := None, records := map[], order := map[], expires := map[], log := [])
  }

  ghost function Filed(k: Keys, field: Field, record: Record, score: int, deadline: int): Keys
    requires record.tokenVersion >= 0
  {
    Keys(Some(record.tokenVersion), k.records[field := record], deadline, k.order[field := score], deadline,
         k.expires[field := record.exp], deadline, k.log + [field])
  }

  lemma ScoresStillRise(log: seq<Field>, scores: map<Field, int>, field: Field, score: int)
    requires Ranked(scores, log) && field !in scores && forall f :: f in scores ==> scores[f] < score
    ensures Ranked(scores[field := score], log + [field])
  {
    var longer := log + [field];
    forall i, j | 0 <= i < j < |longer| ensures longer[i] != longer[j] && scores[field := score][longer[i]] < scores[field := score][longer[j]] {
      assert log[i] in log;
      assert j < |log| ==> log[j] in log;
    }
  }

  lemma FiledWellFormed(v: View, field: Field, record: Record, deadline: int)
    requires WellFormed(v) && field !in v.records && record.tokenVersion >= 0
    requires v.version.Some? ==> v.version == Some(record.tokenVersion)
    requires deadline >= record.exp * 1000 && deadline >= v.deadlineMs
    ensures WellFormed(View(Some(record.tokenVersion), deadline, v.order + [field], v.records[field := record]))
  {
  }

  lemma FilingAgrees(k: Keys, field: Field, record: Record, score: int, deadline: int)
    requires k.Agree() && field !in k.records && record.tokenVersion >= 0
    requires k.version.Some? ==> k.version == Some(record.tokenVersion)
    requires forall f :: f in k.order ==> k.order[f] < score
    requires deadline >= record.exp * 1000 && deadline >= k.Contents().deadlineMs
    ensures var filed := Filed(k, field, record, score, deadline);
            filed.Agree()
            && filed.Contents() == View(Some(record.tokenVersion), deadline, k.Contents().order + [field],
                                        k.Contents().records[field := record])
  {
    hide ScoresRise, WellFormed, Distinct;
    LogRanks(k);
    ScoresStillRise(k.log, k.order, field, score);
    FiledWellFormed(k.Contents(), field, record, deadline);
    assert k.version.None? ==> k.log == [] && k.records == map[];
  }

  lemma ForgottenAgrees(k: Keys)
    ensures Forgotten(k).Agree() && Forgotten(k).Contents() == EMPTY
  {
  }

  // ----- scanning the listed entries -----

  /** The scan of one listing: issue times in order, an error at the first inconsistent entry, stray members removed. */
  ghost function Scan(k: Keys, now: nat, tokenVersion: nat, entries: seq<Field>, times: seq<nat>): (Keys, Option<seq<nat>>)
    decreases |entries|
  {
    if entries == [] then (k, Some(times))
    else if entries[0] !in k.records then Scan(k.Minus({entries[0]}), now, tokenVersion, entries[1..], times)
    else
      var record := k.records[entries[0]];
      if entries[0] !in k.expires || record.exp != k.expires[entries[0]] || k.expires[entries[0]] <= Seconds(now)
         || record.tokenVersion != tokenVersion then (k, None)
      else Scan(k, now, tokenVersion, entries[1..], times + [record.iat])
  }

  ghost predicate Consistent(k: Keys, now: nat, tokenVersion: nat, field: Field) {
    && field in k.records && field in k.expires
    && k.records[field].exp == k.expires[field] > Seconds(now)
    && k.records[field].tokenVersion == tokenVersion
  }

  lemma {:induction false} ScanConsistent(k: Keys, now: nat, tokenVersion: nat, entries: seq<Field>, times: seq<nat>)
    requires forall f :: f in entries ==> Consistent(k, now, tokenVersion, f)
    ensures Scan(k, now, tokenVersion, entries, times) == (k, Some(times + IssueTimes(k.records, entries)))
  {
    if entries != [] {
      assert Consistent(k, now, tokenVersion, entries[0]);
      ScanConsistent(k, now, tokenVersion, entries[1..], times + [k.records[entries[0]].iat]);
      assert times + [k.records[entries[0]].iat] + IssueTimes(k.records, entries[1..])
          == times + IssueTimes(k.records, entries);
    } else {
      assert times + [] == times;
    }
  }

  lemma PrunedConsistent(k: Keys, before: View, now: nat, tokenVersion: nat)
    requires k.Agree() && k.version == Some(tokenVersion) && k.Contents() == Prune(before, now)
    ensures forall f :: f in k.log ==> Consistent(k, now, tokenVersion, f)
    ensures k.Contents().records == k.records && k.Contents().order == k.log
    ensures Ranked(k.order, k.log)
  {
    LogMembers(k);
    PrunedIsLive(before, now);
  }

  // ----- expiry of the keys -----

  /** What is left of the three keys at a time, each under its own deadline. */
  ghost function Expiring(k: Keys, now: nat): Keys {
    var hash := k.version.Some? && Millis(now) > k.recordsDeadline;
    var ordered := k.order != map[] && Millis(now) > k.orderDeadline;
    k.(version := if hash then None else k.version,
       records := if hash then map[] else k.records,
       order := if ordered then map[] else k.order,
       expires := if k.expires != map[] && Millis(now) > k.expiresDeadline then map[] else k.expires,
       log := if hash || ordered then [] else k.log)
  }

  /** Agreeing keys disappear together, which is when the view they stand for ends. */
  lemma KeysExpireTogether(k: Keys, now: nat)
    requires k.Agree()
    ensures Expiring(k, now).Agree() && Expiring(k, now).Contents() == AtTime(k.Contents(), now)
    ensures AtTime(Expiring(k, now).Contents(), now) == Expiring(k, now).Contents()
  {
    LogMembers(k);
    EmptyLog(k);
  }

  lemma EmptyLog(k: Keys)
    requires k.Agree()
    ensures (k.order == map[] <==> k.log == []) && (k.order == map[] <==> k.records == map[])
    ensures k.order == map[] <==> k.expires == map[]
  {
    LogMembers(k);
    assert k.log != [] ==> k.log[0] in k.log;
    assert k.order == map[] <==> k.order.Keys == {};
    assert k.expires == map[] <==> k.expires.Keys == {};
    assert k.records == map[] <==> k.records.Keys == {};
    if k.order != map[] {
      var f :| f in k.order;
      assert f in k.log;
    }
  }

  /** What a created session leaves in the keys: its version, the later deadline, and its entry in all three, last in order. */
  ghost predicate FiledIn(k: Keys, field: Field, record: Record, maximum: int, after: Keys) {
    && after.version == Some(record.tokenVersion) && field in after.records && after.records[field] == record
    && after.recordsDeadline == (if k.version.Some? && k.recordsDeadline > record.exp * 1000 then k.recordsDeadline
                                 else record.exp * 1000)
    && field in after.order && (forall f :: f in after.order ==> after.order[f] <= after.order[field])
    && field in after.expires && after.expires[field] == record.exp && |after.order| <= maximum
  }

  lemma KeysAnswer(k: Keys, now: nat, field: Field, record: Record, maximum: int)
    requires k.Agree()
    ensures var code := Activate(k.Contents(), now, field, record, maximum).1;
            var superseded := k.version.Some? && k.version.value > record.tokenVersion;
            var live := field in k.records && k.records[field].exp > Seconds(now);
            && (code == Invalid <==> !Activatable(now, record, maximum))
            && (code == Superseded <==> Activatable(now, record, maximum) && superseded)
            && (code == Conflict <==> Activatable(now, record, maximum) && !superseded && live)
  {
    ActivationAnswers(k.Contents(), now, field, record, maximum);
    hide Activate;
  }

  lemma KeysFile(k: Keys, after: Keys, now: nat, field: Field, record: Record, maximum: int)
    requires k.Agree() && after.Agree() && after.Contents() == Activate(k.Contents(), now, field, record, maximum).0
    ensures var code := Activate(k.Contents(), now, field, record, maximum).1;
            if code == Created then FiledIn(k, field, record, maximum, after) else after.version == k.version
  {
    hide *;
    MarkOfKeys(k);
    MarkOfKeys(after);
    ActivationFiles(k.Contents(), now, field, record, maximum);
    if Activate(k.Contents(), now, field, record, maximum).1 == Created {
      ViewIsFiled(k, k.Contents(), field, record, maximum, after, after.Contents());
    }
  }

  /** The keys that stand for a view with the new session last have its entry last in all three. */
  lemma ViewIsFiled(k: Keys, v: View, field: Field, record: Record, maximum: int, after: Keys, filed: View)
    requires v.version == k.version && (k.version.Some? ==> v.deadlineMs == k.recordsDeadline)
    requires after.Agree() && filed == after.Contents() && filed.version == Some(record.tokenVersion)
    requires filed.deadlineMs == if v.version.Some? && v.deadlineMs > record.exp * 1000 then v.deadlineMs else record.exp * 1000
    requires field in filed.records && filed.records[field] == record
    requires filed.order != [] && filed.order[|filed.order| - 1] == field && |filed.order| <= maximum
    ensures FiledIn(k, field, record, maximum, after)
  {
    AgreeingKeys(after);
    hide Keys.Agree, Keys.Contents;
  }

  lemma MarkOfKeys(k: Keys)
    requires k.Agree()
    ensures WellFormed(k.Contents()) && k.Contents().version == k.version && k.Contents().records == k.records
    ensures k.version.Some? ==> k.Contents().deadlineMs == k.recordsDeadline
  {
  }

  lemma AgreeingKeys(k: Keys)
    requires k.Agree()
    ensures WellFormed(k.Contents()) && |k.order| == |k.Contents().order| && k.order.Keys == k.records.Keys == k.expires.Keys
    ensures k.Contents().records == k.records && k.Contents().version == k.version
    ensures k.version.Some? ==> k.Contents().deadlineMs == k.recordsDeadline
    ensures forall f :: f in k.records ==> k.expires[f] == k.records[f].exp
    ensures var log := k.Contents().order;
            log != [] ==> forall f :: f in k.order ==> log[|log| - 1] in k.order && k.order[f] <= k.order[log[|log| - 1]]
  {
    LogMembers(k);
    LogCounts(k);
    if k.version.Some? && k.log != [] {
      var last := k.log[|k.log| - 1];
      forall f | f in k.order ensures last in k.order && k.order[f] <= k.order[last] {
        var i :| 0 <= i < |k.log| && k.log[i] == f;
      }
    }
  }

  class Registry {
    var now: nat                          // server time in microseconds
    var version: Option<nat>              // the hash, absent without a version ...
    var records: map<Field, Record>       // ... and its session fields
    var recordsDeadline: int
    var order: map<Field, int>            // login order scores
    var orderDeadline: int
    var expires: map<Field, int>          // expiry scores
    var expiresDeadline: int
    ghost var log: seq<Field>             // the fields in login order

    ghost function AllKeys(): Keys
      reads this
    {
      Keys(version, records, recordsDeadline, order, orderDeadline, expires, expiresDeadline, log)
    }

    ghost function Contents(): View
      reads this
    {
      AllKeys().Contents()
    }

    ghost predicate Valid()
      reads this
    {
      AllKeys().Agree() && AtTime(Contents(), now) == Contents()
    }

    constructor ()
      ensures Valid() && Contents() == EMPTY && now == 0
    {
      now, version, records, order, expires, log := 0, None, map[], map[], map[], [];
      recordsDeadline, orderDeadline, expiresDeadline := 0, 0, 0;
    }

    /** Time passes; each key disappears once its own deadline is over. */
    method PassTime(us: nat)
      requires Valid()
      modifies this
      ensures Valid() && now == old(now) + us
      ensures Contents() == AtTime(old(Contents()), now)
    {
      KeysExpireTogether(AllKeys(), now + us);
      hide Keys.Agree, Keys.Contents, Expiring;
      now := now + us;
      ExpireKeys();
    }

    method ExpireKeys()
      modifies this
      ensures now == old(now) && AllKeys() == Expiring(old(AllKeys()), now)
    {
      if order != map[] && Millis(now) > orderDeadline {
        order, log := map[], [];
      }
      if expires != map[] && Millis(now) > expiresDeadline {
        expires := map[];
      }
      if version.Some? && Millis(now) > recordsDeadline {
        version, records, log := None, map[], [];
      }
    }

    // ----- the scripts' shared functions -----

    method RemoveSession(field: Field)
      modifies this`records, this`order, this`expires, this`log
      ensures AllKeys() == old(AllKeys()).Minus({field})
    {
      records := records - {field};
      order := order - {field};
      expires := expires - {field};
      log := Without(log, {field});
    }

    method PruneExpired()
      requires Valid()
      modifies this`records, this`order, this`expires, this`log
      ensures Valid() && Contents() == Prune(old(Contents()), now)
    {
      var expired := set f | f in expires && expires[f] <= Seconds(now);
      ghost var before := AllKeys();
      assert expired == Expired(Contents(), now);
      RemovalAgrees(before, expired);
      RemoveAll(expired);
      hide Keys.Minus, Keys.Agree;
      assert AllKeys() == before.Minus(expired);
      assert AtTime(Contents(), now) == Contents();
    }

    method RemoveAll(fields: set<Field>)
      modifies this`records, this`order, this`expires, this`log
      ensures AllKeys() == old(AllKeys()).Minus(fields)
    {
      hide *;
      ghost var before := AllKeys();
      var pending, done := fields, {};
      MinusNothing(before);
      while pending != {}
        invariant done + pending == fields
        invariant AllKeys() == before.Minus(done)
        decreases pending
      {
        var field :| field in pending;
        RemoveSession(field);
        MinusTwice(before, done, {field});
        pending, done := pending - {field}, done + {field};
      }
      assert done == fields;
    }

    // ----- activation -----

    /** A score above every other: the clock's own, or one more than the latest. */
    method NextScore() returns (score: int)
      ensures forall f :: f in order ==> order[f] < score
      ensures score >= now && (score > now ==> exists f :: f in order && order[f] + 1 == score)
    {
      score := now;
      if order != map[] {
        GreatestScore(order);
        var newest :| newest in order && forall g :: g in order ==> order[g] <= order[newest];
        if order[newest] >= score {
          score := order[newest] + 1;
        }
      }
    }

    method ForgetSessions()
      modifies this`version, this`records, this`order, this`expires, this`log
      ensures AllKeys() == Forgotten(old(AllKeys()))
    {
      version, records, order, expires, log := None, map[], map[], map[], [];
    }

    method AddSession(field: Field, record: Record, score: int, deadline: int)
      requires record.tokenVersion >= 0
      modifies this
      ensures AllKeys() == Filed(old(AllKeys()), field, record, score, deadline) && now == old(now)
    {
      version := Some(record.tokenVersion);
      records := records[field := record];
      order := order[field := score];
      expires := expires[field := record.exp];
      log := log + [field];
      recordsDeadline, orderDeadline, expiresDeadline := deadline, deadline, deadline;
    }

    /** Drops everything when the version changes, then files the new session last. */
    method FileSession(field: Field, record: Record)
      requires Valid() && field !in records && record.tokenVersion >= 0 && record.exp > Seconds(now)
      modifies this
      ensures Valid() && now == old(now)
      ensures var live := if old(version) == Some(record.tokenVersion) then old(Contents()) else EMPTY;
              Contents() == View(Some(record.tokenVersion),
                                 if old(version).Some? then Max(record.exp * 1000, old(recordsDeadline)) else record.exp * 1000,
                                 live.order + [field], live.records[field := record])
    {
      var deadline := record.exp * 1000;
      if version.Some? && recordsDeadline > deadline {
        deadline := recordsDeadline;
      }
      hide Keys.Agree;
      if version != Some(record.tokenVersion) {
        ForgottenAgrees(AllKeys());
        ForgetSessions();
      }
      var score := NextScore();
      FilingAgrees(AllKeys(), field, record, score, deadline);
      hide Filed;
      AddSession(field, record, score, deadline);
      assert Millis(now) / 1000 == Seconds(now);
    }

    /** Removes the oldest session until at most `maximum` are left. */
    method EvictOldest(maximum: nat)
      requires Valid() && version.Some?
      modifies this`records, this`order, this`expires, this`log
      ensures Valid()
      ensures var all := old(Contents()).order;
              Contents() == old(Contents()).(order := Newest(all, maximum),
                                             records := Restrict(old(Contents()).records, Newest(all, maximum)))
    {
      ghost var before := AllKeys();
      hide Keys.Agree, Keys.Minus, Oldest, Newest, Restrict;
      ghost var count := EvictDownTo(maximum);
      EvictedIsNewest(before, count, maximum);
    }

    method EvictDownTo(maximum: nat) returns (ghost count: nat)
      requires AllKeys().Agree()
      modifies this`records, this`order, this`expires, this`log
      ensures var k := old(AllKeys());
              && count <= |k.log| && AllKeys() == k.Minus(Oldest(k.log, count))
              && |k.log| - count <= maximum && (count > 0 ==> |k.log| - count == maximum)
    {
      hide Keys.Agree, Keys.Minus, Oldest;
      ghost var before := AllKeys();
      count := 0;
      NoneEvicted(before);
      EvictedSize(before, 0);
      while |order| > maximum
        invariant count <= |before.log| && AllKeys() == before.Minus(Oldest(before.log, count))
        invariant |order| == |before.log| - count
        invariant count > 0 ==> |order| >= maximum
        decreases |order|
      {
        LeastScore(order);
        var oldest :| oldest in order && forall g :: g in order ==> order[oldest] <= order[g];
        EvictNext(before, count, oldest);
        RemoveSession(oldest);
        count := count + 1;
        EvictedSize(before, count);
      }
    }

    method ActivateJti(field: Field, record: Record, maximum: int) returns (code: Activation)
      requires Valid()
      modifies this
      ensures Valid() && now == old(now)
      ensures (Contents(), code) == Activate(old(Contents()), now, field, record, maximum)
      ensures code == Invalid <==> !Activatable(now, record, maximum)
      ensures code == Superseded <==>
              Activatable(now, record, maximum) && old(version).Some? && old(version).value > record.tokenVersion
      ensures code == Conflict <==>
              && Activatable(now, record, maximum) && (old(version).Some? ==> old(version).value <= record.tokenVersion)
              && field in old(records) && old(records)[field].exp > Seconds(now)
      ensures if code == Created then FiledIn(old(AllKeys()), field, record, maximum, AllKeys()) else version == old(version)
    {
      ghost var before := AllKeys();
      KeysAnswer(before, now, field, record, maximum);
      hide Activate, Keys.Agree, Keys.Contents, Activatable;
      code := RunActivation(field, record, maximum);
      KeysFile(before, AllKeys(), now, field, record, maximum);
    }

    method RunActivation(field: Field, record: Record, maximum: int) returns (code: Activation)
      requires Valid()
      modifies this
      ensures Valid() && now == old(now)
      ensures (Contents(), code) == Activate(old(Contents()), now, field, record, maximum)
    {
      if maximum < 1 || record.tokenVersion < 0 || record.exp <= Seconds(now) {
        return Invalid;
      }
      if version.Some? && version.value > record.tokenVersion {
        return Superseded;
      }
      MarkOfKeys(AllKeys());
      hide Keys.Agree, Keys.Contents, Prune, Newest, Restrict, WellFormed;
      PruneExpired();
      MarkOfKeys(AllKeys());
      if field in records {
        return Conflict;
      }
      FileSession(field, record);
      EvictOldest(maximum);
      return Created;
    }

    /** Up to two attempts, each signed anew under a fresh id; time passes before each. */
    method IssueAccessToken(user: nat, tokenVersion: nat, attempts: seq<Attempt>, maximum: int) returns (outcome: IssueOutcome)
      requires Valid() && |attempts| == ISSUANCE_ATTEMPTS
      modifies this
      ensures Valid() && (Current(), outcome) == Issue(old(Current()), user, tokenVersion, attempts, maximum)
    {
      hide *;
      ghost var start := Current();
      AllAttempts(attempts);
      for k := 0 to ISSUANCE_ATTEMPTS
        invariant Valid()
        invariant Issue(start, user, tokenVersion, attempts, maximum) == Issue(Current(), user, tokenVersion, attempts[k..], maximum)
      {
        AttemptAnswers(Current(), user, tokenVersion, attempts, k, maximum);
        var attempt := attempts[k];
        var code := IssueOnce(user, tokenVersion, attempt, maximum);
        match code {
          case Created => return Issued(attempt.field);
          case Superseded => return VersionChanged;
          case Invalid => return RegistryUnavailable;
          case Conflict =>
        }
      }
      NoAttempts(Current(), user, tokenVersion, attempts, maximum);
      return IssuanceConflict;
    }

    ghost function Current(): State
      reads this
    {
      State(Contents(), now)
    }

    method IssueOnce(user: nat, tokenVersion: nat, attempt: Attempt, maximum: int) returns (code: Activation)
      requires Valid()
      modifies this
      ensures Valid() && now == old(now) + attempt.delay
      ensures (Contents(), code) == Activate(AtTime(old(Contents()), now), now, attempt.field,
                                             RecordOf(user, tokenVersion, attempt), maximum)
      ensures (Current(), code) == AttemptOnce(old(Current()), user, tokenVersion, attempt, maximum)
    {
      hide Valid, Activate, AtTime;
      PassTime(attempt.delay);
      code := ActivateJti(attempt.field, RecordOf(user, tokenVersion, attempt), maximum);
    }

    // ----- revocation, reading, listing -----

    method CompareAndDelete(field: Field, record: Record) returns (code: Revocation)
      requires Valid()
      modifies this`records, this`order, this`expires, this`log
      ensures Valid() && (Contents(), code) == Revoke(old(Contents()), now, field, record)
    {
      RemovalAgrees(AllKeys(), {field});
      if field !in expires || expires[field] <= Seconds(now) {
        RemoveSession(field);
        return Absent;
      }
      if field !in records {
        return Absent;
      }
      if records[field] != record {
        return Mismatch;
      }
      RemoveSession(field);
      return Sessions.Removed;
    }

    method ReadActiveJti(field: Field) returns (record: Option<Record>)
      requires Valid()
      modifies this`records, this`order, this`expires, this`log
      ensures Valid() && (Contents(), record) == Read(old(Contents()), now, field)
    {
      RemovalAgrees(AllKeys(), {field});
      if field !in expires || expires[field] <= Seconds(now) {
        RemoveSession(field);
        return None;
      }
      if field !in records {
        return None;
      }
      var value := records[field];
      if value.exp != expires[field] || version != Some(value.tokenVersion) || field !in order {
        return None;
      }
      return Some(value);
    }

    /** The error answer for an inconsistent entry is `None`; valid keys never give it. */
    method ListUserSessions(tokenVersion: nat) returns (times: Option<seq<nat>>)
      requires Valid()
      modifies this`records, this`order, this`expires, this`log
      ensures Valid() && times.Some? && (Contents(), times.value) == List(old(Contents()), now, tokenVersion)
    {
      if version != Some(tokenVersion) {
        return Some([]);
      }
      PruneExpired();
      ghost var pruned := AllKeys();
      PrunedConsistent(pruned, old(Contents()), now, tokenVersion);
      ScanConsistent(pruned, now, tokenVersion, pruned.log, []);
      assert [] + IssueTimes(records, log) == IssueTimes(records, log);
      var entries := ByScore(order, log);
      hide Keys.Agree, Scan, Ranked, Prune, WellFormed, Consistent;
      times := ScanEntries(tokenVersion, entries);
    }

    method ScanEntries(tokenVersion: nat, entries: seq<Field>) returns (times: Option<seq<nat>>)
      modifies this`records, this`order, this`expires, this`log
      ensures (AllKeys(), times) == Scan(old(AllKeys()), now, tokenVersion, entries, [])
    {
      ghost var answer := Scan(AllKeys(), now, tokenVersion, entries, []);
      var result: seq<nat> := [];
      assert entries[0..] == entries;
      for k := 0 to |entries|
        invariant answer == Scan(AllKeys(), now, tokenVersion, entries[k..], result)
      {
        var field := entries[k];
        assert entries[k..][0] == field && entries[k..][1..] == entries[k + 1..];
        if field in records {
          var record := records[field];
          if field !in expires || record.exp != expires[field] || expires[field] <= Seconds(now)
             || record.tokenVersion != tokenVersion {
            return None;
          }
          result := result + [record.iat];
        } else {
          RemoveSession(field);
        }
      }
      return Some(result);
    }
  }
}
