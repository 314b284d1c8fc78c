/** The paged, filtered user and role listings against the visibility predicates they must agree with. */
module Listing {
  import opened Domain
  import opened Policy
  import opened AccessTables
  import opened AccessInvariant

  /** The listing's own super-administrator test looks at the key and the flag of one and the same role. */
  predicate ActorIsSuperAdmin(actor: AuthoritySnapshot) {
    exists r :: r in actor.roles && actor.roles[r].key == SuperAdminKey && actor.roles[r].isSuperAdmin
  }

  datatype Group = Group(tier: nat, hasProtectedRole: bool)

  /** The bindings joined with their active, undeleted roles. */
  function ActiveRows(t: Tables): set<(UserId, RoleId)> {
    set b | b in t.bindings && t.Counts(b.1, false)
  }

  function RowsOf(t: Tables, u: UserId): (rows: set<(UserId, RoleId)>)
    ensures forall v, r :: (v, r) in rows <==> v == u && (u, r) in t.bindings && t.Counts(r, false)
  {
    set b | b in ActiveRows(t) && b.0 == u
  }

  /** The grouped subquery: one group per user that has any active row. */
  function ActiveAuthority(t: Tables): map<UserId, Group> {
    map u | u in t.users && RowsOf(t, u) != {} ::
      Group(Highest(set b | b in RowsOf(t, u) :: t.roles[b.1].tier),
            exists b :: b in RowsOf(t, u) && t.roles[b.1].isProtected)
  }

  /** The outer join of live users with their group, absent groups read as tier zero and unprotected. */
  function VisibleUsers(t: Tables, actor: AuthoritySnapshot): set<UserId> {
    var groups := ActiveAuthority(t);
    set u | u in t.users && !t.users[u].deleted &&
            (ActorIsSuperAdmin(actor) ||
             (&& u != actor.userId
              && !t.users[u].isProtected
              && !(if u in groups then groups[u].hasProtectedRole else false)
              && (if u in groups then groups[u].tier else 0) < actor.tier))
  }

  function VisibleRoles(t: Tables, actor: AuthoritySnapshot): set<RoleId> {
    set r | r in t.roles && !t.roles[r].deleted &&
            (ActorIsSuperAdmin(actor) ||
             (t.roles[r].tier < actor.tier && !t.roles[r].isProtected && !t.roles[r].isSuperAdmin))
  }

  lemma SuperAdminTestsAgree(t: Tables, a: UserId)
    requires RolesWellShaped(t) && a in t.users
    ensures ActorIsSuperAdmin(t.Effective(a)) == t.Effective(a).isSuperAdmin
  {
    var actor := t.Effective(a);
    if actor.isSuperAdmin {
      var r :| r in actor.roles && actor.roles[r].isSuperAdmin;
      assert RoleShape(t.roles[r]);
    }
  }

  lemma HighestIs(tiers: set<nat>, top: nat)
    requires forall n :: n in tiers ==> n <= top
    requires top == 0 || top in tiers
    ensures Highest(tiers) == top
  {
  }

  lemma GroupTier(t: Tables, u: UserId)
    requires u in t.users
    ensures t.Effective(u).tier == Highest(set b | b in RowsOf(t, u) :: t.roles[b.1].tier)
    ensures RowsOf(t, u) == {} ==> t.Effective(u).tier == 0
  {
    var grants := t.GrantsOf(u, false);
    var byRow := set b | b in RowsOf(t, u) :: t.roles[b.1].tier;
    var tier := t.Effective(u).tier;
    hide Highest;
    forall n | n in byRow ensures n <= tier {
      var b :| b in RowsOf(t, u) && t.roles[b.1].tier == n;
      assert (b.0, b.1) in RowsOf(t, u);
      assert b.1 in grants;
    }
    if tier != 0 {
      var r :| r in grants && grants[r].tier == tier;
      assert (u, r) in RowsOf(t, u);
    }
    HighestIs(byRow, tier);
  }

  lemma GroupProtection(t: Tables, u: UserId)
    requires u in t.users
    ensures t.Effective(u).isProtected <==>
            t.users[u].isProtected || exists b :: b in RowsOf(t, u) && t.roles[b.1].isProtected
  {
    var grants := t.GrantsOf(u, false);
    hide Highest;
    if r :| r in grants && grants[r].isProtected {
      assert (u, r) in RowsOf(t, u);
    }
    if b :| b in RowsOf(t, u) && t.roles[b.1].isProtected {
      assert (b.0, b.1) in RowsOf(t, u);
      assert b.1 in grants;
    }
  }

  /** A user's group is the tier and protection of the user's effective grants; no group means neither. */
  lemma GroupIsEffective(t: Tables, u: UserId)
    requires u in t.users
    ensures var groups := ActiveAuthority(t);
            && t.Effective(u).tier == (if u in groups then groups[u].tier else 0)
            && t.Effective(u).isProtected == (t.users[u].isProtected || (u in groups && groups[u].hasProtectedRole))
  {
    GroupTier(t, u);
    GroupProtection(t, u);
    hide Build;
  }

  /** The listing query selects exactly the live users the policy shows to the actor. */
  lemma UserListingAgrees(t: Tables, a: UserId)
    requires RolesWellShaped(t) && a in t.users
    ensures VisibleUsers(t, t.Effective(a)) == set u | u in t.users && t.Live(u) && UserVisible(t.Effective(a), t.Effective(u))
  {
    var actor := t.Effective(a);
    SuperAdminTestsAgree(t, a);
    forall u | u in t.users
      ensures u in VisibleUsers(t, actor) <==> t.Live(u) && UserVisible(actor, t.Effective(u))
    {
      GroupIsEffective(t, u);
    }
  }

  /** The role listing selects exactly the live roles the policy shows to the actor. */
  lemma RoleListingAgrees(t: Tables, a: UserId)
    requires RolesWellShaped(t) && a in t.users
    ensures VisibleRoles(t, t.Effective(a)) ==
            set r | r in t.roles && !t.roles[r].deleted && RoleVisible(t.Effective(a), t.GrantOf(r))
  {
    SuperAdminTestsAgree(t, a);
  }

  /** Without the role shapes the two tests part: a flagged role under another key shows the policy everything, the query nothing. */
  lemma ListingNeedsRoleShapes()
    ensures exists t: Tables, a: UserId :: a in t.users &&
              VisibleUsers(t, t.Effective(a)) != set u | u in t.users && t.Live(u) && UserVisible(t.Effective(a), t.Effective(u))
  {
    var user := UserRow("a", true, false, false, 0, 1);
    var role := RoleRow(CustomKey("x"), "x", "", 0, true, false, false, false, true, 0);
    var t := Tables(map[0 := user], map[0 := role], {(0, 0)}, {}, 0, true, map[]);
    var actor := t.Effective(0);
    assert t.GrantsOf(0, false)[0].isSuperAdmin;
    assert actor.isSuperAdmin && UserVisible(actor, actor);
    assert !ActorIsSuperAdmin(actor);
    assert 0 !in VisibleUsers(t, actor);
    assert 0 in set u | u in t.users && t.Live(u) && UserVisible(t.Effective(0), t.Effective(u));
  }

  // ----- pages -----

  function Min(a: nat, b: nat): nat {
    if a < b then a else b
  }

  /** `OFFSET (page - 1) * size LIMIT size` */
  function Page(list: seq<nat>, page: nat, size: nat): seq<nat>
    requires page >= 1
  {
    var from := Min((page - 1) * size, |list|);
    list[from..Min(from + size, |list|)]
  }

  function FirstPages(list: seq<nat>, count: nat, size: nat): seq<nat> {
    if count == 0 then [] else FirstPages(list, count - 1, size) + Page(list, count, size)
  }

  lemma {:induction false} FirstPagesPrefix(list: seq<nat>, count: nat, size: nat)
    ensures FirstPages(list, count, size) == list[..Min(count * size, |list|)]
  {
    if count > 0 {
      FirstPagesPrefix(list, count - 1, size);
      assert count * size == (count - 1) * size + size;
    }
  }

  /**
   Pages one to the last, read in order, are the visible users exactly once
   each, in id order, and as many as the reported total.
   */
  lemma PagesPartitionVisibleUsers(t: Tables, a: UserId, size: nat, count: nat)
    requires RolesWellShaped(t) && a in t.users
    requires count * size >= |VisibleUsers(t, t.Effective(a))|
    ensures var listed := FirstPages(Ascending(VisibleUsers(t, t.Effective(a))), count, size);
            && |listed| == |VisibleUsers(t, t.Effective(a))|
            && StrictlyIncreasing(listed)
            && (forall u :: u in listed <==> t.Live(u) && UserVisible(t.Effective(a), t.Effective(u)))
  {
    var visible := VisibleUsers(t, t.Effective(a));
    var list := Ascending(visible);
    AscendingMembers(visible);
    AscendingIncreases(visible);
    FirstPagesPrefix(list, count, size);
    assert FirstPages(list, count, size) == list;
    UserListingAgrees(t, a);
    assert forall u :: u in visible <==> t.Live(u) && UserVisible(t.Effective(a), t.Effective(u));
  }

  lemma PageIndex(list: seq<nat>, page: nat, size: nat, x: nat) returns (k: nat)
    requires page >= 1 && x in Page(list, page, size)
    ensures (page - 1) * size <= k < (page - 1) * size + size && k < |list| && list[k] == x
  {
    var from := (page - 1) * size;
    var i :| 0 <= i < |Page(list, page, size)| && Page(list, page, size)[i] == x;
    k := from + i;
  }

  lemma EarlierPageEnds(p: nat, q: nat, size: nat)
    requires 1 <= p < q
    ensures (p - 1) * size + size <= (q - 1) * size
  {
    var gap := q - 1 - p;
    assert (p + gap) * size == p * size + gap * size;
    assert p * size == (p - 1) * size + size;
  }

  ghost predicate NoRepeats(list: seq<nat>) {
    forall i, j :: 0 <= i < j < |list| ==> list[i] != list[j]
  }

  /** No listed entry appears on two pages. */
  lemma PagesDisjoint(list: seq<nat>, size: nat, p: nat, q: nat)
    requires 1 <= p < q && NoRepeats(list)
    ensures forall x :: !(x in Page(list, p, size) && x in Page(list, q, size))
  {
    EarlierPageEnds(p, q, size);
    hide Page;
    forall x ensures !(x in Page(list, p, size) && x in Page(list, q, size)) {
      if x in Page(list, p, size) && x in Page(list, q, size) {
        var i := PageIndex(list, p, size, x);
        var j := PageIndex(list, q, size, x);
        assert false;
      }
    }
  }

  // ----- pages of roles, ordered by key and then id -----

  function KeyText(key: RoleKey): string {
    match key
    case SuperAdminKey => "super_admin"
    case AdminKey => "admin"
    case UserKey => "user"
    case CustomKey(text) => text
  }

  /** Texts compare by the code points of their characters. */
  predicate TextBefore(a: string, b: string)
    decreases |a|
  {
    b != [] && (a == [] || a[0] < b[0] || (a[0] == b[0] && TextBefore(a[1..], b[1..])))
  }

  lemma {:induction false} TextsCompare(a: string, b: string)
    ensures a == b || TextBefore(a, b) || TextBefore(b, a)
    ensures !(TextBefore(a, b) && TextBefore(b, a)) && !TextBefore(a, a)
    decreases |a|
  {
    if a != [] {
      TextsCompare(a[1..], a[1..]);
      if b != [] && a[0] == b[0] {
        TextsCompare(a[1..], b[1..]);
        assert a == [a[0]] + a[1..] && b == [b[0]] + b[1..];
      }
    }
  }

  lemma {:induction false} TextsChain(a: string, b: string, c: string)
    requires TextBefore(a, b) && TextBefore(b, c)
    ensures TextBefore(a, c)
    decreases |a|
  {
    if a != [] && a[0] == b[0] && b[0] == c[0] {
      TextsChain(a[1..], b[1..], c[1..]);
    }
  }

  ghost predicate RoleBefore(t: Tables, r: RoleId, s: RoleId)
    requires r in t.roles && s in t.roles
  {
    var a, b := KeyText(t.roles[r].key), KeyText(t.roles[s].key);
    TextBefore(a, b) || (a == b && r < s)
  }

  lemma RolesCompare(t: Tables, r: RoleId, s: RoleId)
    requires r in t.roles && s in t.roles
    ensures r == s || RoleBefore(t, r, s) || RoleBefore(t, s, r)
    ensures !(RoleBefore(t, r, s) && RoleBefore(t, s, r)) && !RoleBefore(t, r, r)
  {
    TextsCompare(KeyText(t.roles[r].key), KeyText(t.roles[s].key));
    TextsCompare(KeyText(t.roles[r].key), KeyText(t.roles[r].key));
  }

  lemma RolesChain(t: Tables, r: RoleId, s: RoleId, u: RoleId)
    requires r in t.roles && s in t.roles && u in t.roles && RoleBefore(t, r, s) && RoleBefore(t, s, u)
    ensures RoleBefore(t, r, u)
  {
    var a, b, c := KeyText(t.roles[r].key), KeyText(t.roles[s].key), KeyText(t.roles[u].key);
    if TextBefore(a, b) && TextBefore(b, c) {
      TextsChain(a, b, c);
    }
  }

  /** `ORDER BY key, id` */
  ghost predicate InKeyOrder(t: Tables, list: seq<RoleId>) {
    && (forall i :: 0 <= i < |list| ==> list[i] in t.roles)
    && (forall i, j :: 0 <= i < j < |list| ==> RoleBefore(t, list[i], list[j]))
  }

  ghost predicate Enumerates(list: seq<RoleId>, ids: set<RoleId>) {
    forall r :: r in list <==> r in ids
  }

  lemma KeyOrderNoRepeats(t: Tables, list: seq<RoleId>)
    requires InKeyOrder(t, list)
    ensures NoRepeats(list)
  {
    forall i, j | 0 <= i < j < |list| ensures list[i] != list[j] {
      RolesCompare(t, list[i], list[j]);
    }
  }

  lemma {:induction false} EnumerationSize(list: seq<RoleId>, ids: set<RoleId>)
    requires NoRepeats(list) && Enumerates(list, ids)
    ensures |list| == |ids|
  {
    if list == [] {
      assert ids == {};
    } else {
      var rest := list[1..];
      assert forall i :: 0 <= i < |rest| ==> rest[i] == list[i + 1];
      assert list[0] !in rest;
      assert forall r :: r in list <==> r == list[0] || r in rest;
      EnumerationSize(rest, ids - {list[0]});
    }
  }

  /** Some role comes before all others. */
  lemma FirstRole(t: Tables, ids: set<RoleId>) returns (first: RoleId)
    requires ids != {} && ids <= t.roles.Keys
    ensures first in ids && forall r :: r in ids && r != first ==> RoleBefore(t, first, r)
    decreases ids
  {
    var some :| some in ids;
    if ids == {some} {
      first := some;
    } else {
      var best := FirstRole(t, ids - {some});
      RolesCompare(t, some, best);
      first := if RoleBefore(t, some, best) then some else best;
      forall r | r in ids && r != first ensures RoleBefore(t, first, r) {
        if first == some && r != best {
          RolesChain(t, some, best, r);
        }
      }
    }
  }

  /** Every set of roles has exactly one enumeration in that order. */
  lemma KeyOrderExists(t: Tables, ids: set<RoleId>) returns (list: seq<RoleId>)
    requires ids <= t.roles.Keys
    ensures InKeyOrder(t, list) && Enumerates(list, ids)
    decreases ids
  {
    if ids == {} {
      list := [];
    } else {
      var first := FirstRole(t, ids);
      var rest := KeyOrderExists(t, ids - {first});
      list := [first] + rest;
      forall i, j | 0 <= i < j < |list| ensures RoleBefore(t, list[i], list[j]) {
        assert list[j] == rest[j - 1] && list[j] in rest;
        assert i > 0 ==> list[i] == rest[i - 1];
      }
    }
  }

  lemma {:induction false} KeyOrderUnique(t: Tables, a: seq<RoleId>, b: seq<RoleId>)
    requires InKeyOrder(t, a) && InKeyOrder(t, b) && forall r :: r in a <==> r in b
    ensures a == b
  {
    BothEmpty(a, b);
    if a != [] {
      assert a[0] in a && a[0] in b && b[0] in a;
      var i :| 0 <= i < |b| && b[i] == a[0];
      var j :| 0 <= j < |a| && a[j] == b[0];
      RolesCompare(t, a[0], b[0]);
      KeyOrderNoRepeats(t, a);
      KeyOrderNoRepeats(t, b);
      TailsAgree(a, b);
      KeyOrderUnique(t, a[1..], b[1..]);
    }
  }

  lemma BothEmpty(a: seq<RoleId>, b: seq<RoleId>)
    requires forall r :: r in a <==> r in b
    ensures a == [] <==> b == []
  {
    if a != [] {
      assert a[0] in b;
    }
    if b != [] {
      assert b[0] in a;
    }
  }

  lemma TailsAgree(a: seq<RoleId>, b: seq<RoleId>)
    requires a != [] && b != [] && a[0] == b[0] && NoRepeats(a) && NoRepeats(b) && forall r :: r in a <==> r in b
    ensures forall r :: r in a[1..] <==> r in b[1..]
  {
    assert forall r :: r in a <==> r == a[0] || r in a[1..];
    assert forall r :: r in b <==> r == b[0] || r in b[1..];
  }

  /**
   Role pages one to the last, read in order, are the visible roles exactly
   once each, by key and then id, and as many as the reported total.
   */
  lemma PagesPartitionVisibleRoles(t: Tables, a: UserId, order: seq<RoleId>, size: nat, count: nat)
    requires RolesWellShaped(t) && a in t.users
    requires InKeyOrder(t, order) && Enumerates(order, VisibleRoles(t, t.Effective(a)))
    requires count * size >= |VisibleRoles(t, t.Effective(a))|
    ensures var listed := FirstPages(order, count, size);
            && |listed| == |VisibleRoles(t, t.Effective(a))| && InKeyOrder(t, listed) && NoRepeats(listed)
            && forall r :: r in listed <==> r in t.roles && !t.roles[r].deleted && RoleVisible(t.Effective(a), t.GrantOf(r))
  {
    var visible := VisibleRoles(t, t.Effective(a));
    KeyOrderNoRepeats(t, order);
    EnumerationSize(order, visible);
    FirstPagesPrefix(order, count, size);
    assert FirstPages(order, count, size) == order;
    RoleListingAgrees(t, a);
    hide VisibleRoles, RoleVisible, Tables.Snapshot, InKeyOrder;
    assert forall r :: r in visible <==> r in t.roles && !t.roles[r].deleted && RoleVisible(t.Effective(a), t.GrantOf(r));
  }
}
