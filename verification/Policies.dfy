/**
 Auth policies (python/oxbrook/_auth.py, python/oxbrook/auth.py): the tree a route declares, the ways
 through it, and the grouped plan a gate runs. The reference reading of a policy is on the tree.
 */
module Policies {
  import opened Util

  datatype Principal = Principal(subject: string, scheme: string, scopes: set<string>, roles: set<string>)

  /** `check` names a check function, which the world answers for. */
  datatype Requirement = Requirement(allOf: set<string>, anyOf: set<string>, roles: set<string>, check: Option<nat>)

  /** Schemes are known by identity; `requires` and `|` build the tree over them. */
  datatype Policy =
    | Scheme(id: nat)
    | Either(members: seq<Policy>)
    | Required(inner: Policy, requirement: Requirement)

  /** An `auth=` declaration; `optional` stands at the top only. */
  datatype Declaration = Declaration(policy: Policy, optional: bool)

  /** One way through a policy: a scheme and the requirements on the way, inner first. */
  datatype Way = Way(id: nat, requirements: seq<Requirement>)

  // ----- Ways through a policy -----

  function Extended(ways: seq<Way>, r: Requirement): (e: seq<Way>)
    ensures |e| == |ways| && forall i :: 0 <= i < |ways| ==> e[i] == Way(ways[i].id, ways[i].requirements + [r])
  {
    seq(|ways|, i requires 0 <= i < |ways| => Way(ways[i].id, ways[i].requirements + [r]))
  }

  /** `_alternatives`. */
  function Ways(policy: Policy): seq<Way>
    decreases policy
  {
    match policy
    case Scheme(id) => [Way(id, [])]
    case Either(members) => WaysOfAll(members)
    case Required(inner, r) => Extended(Ways(inner), r)
  }

  function WaysOfAll(members: seq<Policy>): seq<Way>
    decreases members
  {
    if members == [] then [] else Ways(members[0]) + WaysOfAll(members[1..])
  }

  // ----- What a policy means, read on the tree -----

  /** Some path through the tree to scheme `id` has all its requirements satisfied. */
  ghost predicate Opens(policy: Policy, id: nat, met: Requirement -> bool)
    decreases policy
  {
    match policy
    case Scheme(i) => i == id
    case Either(members) => exists k :: 0 <= k < |members| && Opens(members[k], id, met)
    case Required(inner, r) => Opens(inner, id, met) && met(r)
  }

  /** The schemes in the order they are written. */
  function Written(policy: Policy): seq<nat>
    decreases policy
  {
    match policy
    case Scheme(id) => [id]
    case Either(members) => WrittenInAll(members)
    case Required(inner, _) => Written(inner)
  }

  function WrittenInAll(members: seq<Policy>): seq<nat>
    decreases members
  {
    if members == [] then [] else Written(members[0]) + WrittenInAll(members[1..])
  }

  predicate AllMet(requirements: seq<Requirement>, met: Requirement -> bool) {
    forall i :: 0 <= i < |requirements| ==> met(requirements[i])
  }

  ghost predicate SomeWay(ways: seq<Way>, id: nat, met: Requirement -> bool) {
    exists i :: 0 <= i < |ways| && ways[i].id == id && AllMet(ways[i].requirements, met)
  }

  lemma SomeWayJoins(a: seq<Way>, b: seq<Way>, id: nat, met: Requirement -> bool)
    ensures SomeWay(a + b, id, met) <==> SomeWay(a, id, met) || SomeWay(b, id, met)
  {
    if SomeWay(a + b, id, met) {
      var i :| 0 <= i < |a + b| && (a + b)[i].id == id && AllMet((a + b)[i].requirements, met);
      assert i < |a| ==> (a + b)[i] == a[i];
      assert i >= |a| ==> (a + b)[i] == b[i - |a|];
    }
    if SomeWay(a, id, met) {
      var i :| 0 <= i < |a| && a[i].id == id && AllMet(a[i].requirements, met);
      assert (a + b)[i] == a[i];
    }
    if SomeWay(b, id, met) {
      var i :| 0 <= i < |b| && b[i].id == id && AllMet(b[i].requirements, met);
      assert (a + b)[|a| + i] == b[i];
    }
  }

  lemma AllMetAlso(requirements: seq<Requirement>, r: Requirement, met: Requirement -> bool)
    ensures AllMet(requirements + [r], met) <==> AllMet(requirements, met) && met(r)
  {
    var all := requirements + [r];
    assert all[|requirements|] == r;
    assert forall i :: 0 <= i < |requirements| ==> all[i] == requirements[i];
  }

  lemma SomeWayExtended(ways: seq<Way>, r: Requirement, id: nat, met: Requirement -> bool)
    ensures SomeWay(Extended(ways, r), id, met) <==> SomeWay(ways, id, met) && met(r)
  {
    forall i | 0 <= i < |ways|
      ensures AllMet(Extended(ways, r)[i].requirements, met) <==> AllMet(ways[i].requirements, met) && met(r)
    {
      AllMetAlso(ways[i].requirements, r, met);
    }
    if SomeWay(ways, id, met) && met(r) {
      var i :| 0 <= i < |ways| && ways[i].id == id && AllMet(ways[i].requirements, met);
      assert Extended(ways, r)[i].id == id;
    }
  }

  /** The ways listed are the paths of the tree: one to `id` is open exactly when the tree opens. */
  lemma {:induction false} WaysAreThePaths(policy: Policy, id: nat, met: Requirement -> bool)
    ensures SomeWay(Ways(policy), id, met) <==> Opens(policy, id, met)
    decreases policy
  {
    match policy
    case Scheme(i) =>
      assert Ways(policy)[0] == Way(i, []);
    case Either(members) => WaysOfAllAreThePaths(members, id, met);
    case Required(inner, r) =>
      WaysAreThePaths(inner, id, met);
      SomeWayExtended(Ways(inner), r, id, met);
  }

  lemma {:induction false} WaysOfAllAreThePaths(members: seq<Policy>, id: nat, met: Requirement -> bool)
    ensures SomeWay(WaysOfAll(members), id, met) <==> exists k :: 0 <= k < |members| && Opens(members[k], id, met)
    decreases members
  {
    if members != [] {
      WaysAreThePaths(members[0], id, met);
      WaysOfAllAreThePaths(members[1..], id, met);
      SomeWayJoins(Ways(members[0]), WaysOfAll(members[1..]), id, met);
      assert forall k :: 0 <= k < |members[1..]| ==> members[1..][k] == members[k + 1];
      if k :| 0 <= k < |members| && Opens(members[k], id, met) {
        assert k > 0 ==> Opens(members[1..][k - 1], id, met);
      }
    }
  }

  function Ids(ways: seq<Way>): (ids: seq<nat>)
    ensures |ids| == |ways| && forall i :: 0 <= i < |ways| ==> ids[i] == ways[i].id
  {
    seq(|ways|, i requires 0 <= i < |ways| => ways[i].id)
  }

  lemma {:induction false} WaysAreInWrittenOrder(policy: Policy)
    ensures Ids(Ways(policy)) == Written(policy)
    decreases policy
  {
    match policy
    case Scheme(_) =>
    case Either(members) => AllInWrittenOrder(members);
    case Required(inner, _) => WaysAreInWrittenOrder(inner);
  }

  lemma {:induction false} AllInWrittenOrder(members: seq<Policy>)
    ensures Ids(WaysOfAll(members)) == WrittenInAll(members)
    decreases members
  {
    if members != [] {
      WaysAreInWrittenOrder(members[0]);
      AllInWrittenOrder(members[1..]);
    }
  }

  // ----- The plan: each scheme once, with every set of requirements it may satisfy -----

  datatype Group = Group(id: nat, options: seq<seq<Requirement>>)

  function Place(groups: seq<Group>, id: nat): nat {
    if groups == [] || groups[0].id == id then 0 else 1 + Place(groups[1..], id)
  }

  lemma {:induction false} PlaceFinds(groups: seq<Group>, id: nat)
    ensures Place(groups, id) <= |groups|
    ensures Place(groups, id) < |groups| ==> groups[Place(groups, id)].id == id
    ensures forall i :: 0 <= i < Place(groups, id) && i < |groups| ==> groups[i].id != id
  {
    if groups != [] && groups[0].id != id {
      PlaceFinds(groups[1..], id);
    }
  }

  /** The options a list of ways leaves scheme `id`, in order. */
  function OptionsOf(ways: seq<Way>, id: nat): seq<seq<Requirement>> {
    if ways == [] then []
    else
      var last := ways[|ways| - 1];
      OptionsOf(ways[..|ways| - 1], id) + if last.id == id then [last.requirements] else []
  }

  /** Each element once, in the order first met. */
  function Firsts(ids: seq<nat>): seq<nat> {
    if ids == [] then []
    else
      var few, last := Firsts(ids[..|ids| - 1]), ids[|ids| - 1];
      if last in few then few else few + [last]
  }

  lemma {:induction false} FirstsAreDistinct(ids: seq<nat>)
    ensures forall x :: x in Firsts(ids) <==> x in ids
    ensures forall i, j :: 0 <= i < j < |Firsts(ids)| ==> Firsts(ids)[i] != Firsts(ids)[j]
  {
    if ids != [] {
      FirstsAreDistinct(ids[..|ids| - 1]);
      assert ids == ids[..|ids| - 1] + [ids[|ids| - 1]];
    }
  }

  function GroupIds(groups: seq<Group>): (ids: seq<nat>)
    ensures |ids| == |groups| && forall i :: 0 <= i < |groups| ==> ids[i] == groups[i].id
  {
    seq(|groups|, i requires 0 <= i < |groups| => groups[i].id)
  }

  /** Every scheme of `ways` once, in the order first met, with all its options in order. */
  ghost predicate Grouped(ways: seq<Way>, groups: seq<Group>) {
    && GroupIds(groups) == Firsts(Ids(ways))
    && forall i :: 0 <= i < |groups| ==> groups[i].options == OptionsOf(ways, groups[i].id)
  }

  lemma IdsOneMore(ways: seq<Way>, way: Way)
    ensures Ids(ways + [way]) == Ids(ways) + [way.id]
    ensures Firsts(Ids(ways + [way])) == Firsts(Ids(ways)) + if way.id in Firsts(Ids(ways)) then [] else [way.id]
    ensures forall id ::
      OptionsOf(ways + [way], id) == OptionsOf(ways, id) + if way.id == id then [way.requirements] else []
  {
    assert (Ids(ways) + [way.id])[..|ways|] == Ids(ways);
    assert (ways + [way])[..|ways|] == ways;
  }

  lemma GroupJoined(ways: seq<Way>, groups: seq<Group>, way: Way, at: nat)
    requires Grouped(ways, groups) && at < |groups| && groups[at].id == way.id
    ensures Grouped(ways + [way], groups[at := Group(way.id, groups[at].options + [way.requirements])])
  {
    var after := groups[at := Group(way.id, groups[at].options + [way.requirements])];
    IdsOneMore(ways, way);
    FirstsAreDistinct(Ids(ways));
    assert way.id == GroupIds(groups)[at];
    assert GroupIds(after) == GroupIds(groups);
    forall i | 0 <= i < |after| && i != at
      ensures after[i].id != way.id
    {
      assert GroupIds(groups)[i] != GroupIds(groups)[at];
    }
  }

  lemma {:induction false} OptionsOfNone(ways: seq<Way>, id: nat)
    requires id !in Ids(ways)
    ensures OptionsOf(ways, id) == []
  {
    if ways != [] {
      var front := ways[..|ways| - 1];
      assert Ids(ways)[|front|] == ways[|front|].id;
      assert forall k :: 0 <= k < |front| ==> Ids(front)[k] == Ids(ways)[k];
      OptionsOfNone(front, id);
    }
  }

  lemma GroupOpened(ways: seq<Way>, groups: seq<Group>, way: Way)
    requires Grouped(ways, groups) && way.id !in GroupIds(groups)
    ensures Grouped(ways + [way], groups + [Group(way.id, [way.requirements])])
  {
    IdsOneMore(ways, way);
    FirstsAreDistinct(Ids(ways));
    OptionsOfNone(ways, way.id);
    var after := groups + [Group(way.id, [way.requirements])];
    assert GroupIds(after) == GroupIds(groups) + [way.id];
    forall i | 0 <= i < |groups|
      ensures groups[i].id != way.id
    {
      assert GroupIds(groups)[i] == groups[i].id;
    }
  }

  /** `plan`: the dictionary keeps its keys in the order they were first set. */
  method Plan(policy: Policy) returns (groups: seq<Group>)
    ensures Grouped(Ways(policy), groups)
  {
    var ways := Ways(policy);
    groups := [];
    for k := 0 to |ways|
      invariant Grouped(ways[..k], groups)
    {
      assert ways[..k + 1] == ways[..k] + [ways[k]];
      var at := Place(groups, ways[k].id);
      PlaceFinds(groups, ways[k].id);
      if at < |groups| {
        GroupJoined(ways[..k], groups, ways[k], at);
        groups := groups[at := Group(ways[k].id, groups[at].options + [ways[k].requirements])];
      } else {
        GroupOpened(ways[..k], groups, ways[k]);
        groups := groups + [Group(ways[k].id, [ways[k].requirements])];
      }
    }
    assert ways[..|ways|] == ways;
  }

  ghost predicate SomeOption(options: seq<seq<Requirement>>, met: Requirement -> bool) {
    exists i :: 0 <= i < |options| && AllMet(options[i], met)
  }

  lemma SomeOptionMore(options: seq<seq<Requirement>>, last: seq<Requirement>, met: Requirement -> bool)
    ensures SomeOption(options + [last], met) <==> SomeOption(options, met) || AllMet(last, met)
  {
    var all := options + [last];
    assert all[|options|] == last;
    assert forall i :: 0 <= i < |options| ==> all[i] == options[i];
    if i :| 0 <= i < |options| && AllMet(options[i], met) {
      assert AllMet(all[i], met);
    }
  }

  /** An option of `id` is met exactly when some way to `id` is. */
  lemma {:induction false} OptionsAreWays(ways: seq<Way>, id: nat, met: Requirement -> bool)
    ensures SomeOption(OptionsOf(ways, id), met) <==> SomeWay(ways, id, met)
  {
    if ways != [] {
      var front, last := ways[..|ways| - 1], ways[|ways| - 1];
      OptionsAreWays(front, id, met);
      assert ways == front + [last];
      SomeWayJoins(front, [last], id, met);
      assert SomeWay([last], id, met) <==> last.id == id && AllMet(last.requirements, met) by {
        assert [last][0] == last;
      }
      SomeOptionMore(OptionsOf(front, id), last.requirements, met);
      assert OptionsOf(front, id) + [] == OptionsOf(front, id);
    }
  }

  // ----- A policy without the schemes whose credential works once -----

  function Without(ways: seq<Way>, tickets: set<nat>): seq<Way> {
    if ways == [] then [] else (if ways[0].id in tickets then [] else [ways[0]]) + Without(ways[1..], tickets)
  }

  lemma {:induction false} WithoutJoins(a: seq<Way>, b: seq<Way>, tickets: set<nat>)
    ensures Without(a + b, tickets) == Without(a, tickets) + Without(b, tickets)
  {
    if a == [] {
      assert a + b == b;
    } else {
      assert (a + b)[1..] == a[1..] + b;
      WithoutJoins(a[1..], b, tickets);
    }
  }

  lemma {:induction false} WithoutExtended(ways: seq<Way>, r: Requirement, tickets: set<nat>)
    ensures Without(Extended(ways, r), tickets) == Extended(Without(ways, tickets), r)
  {
    if ways != [] {
      assert Extended(ways, r)[1..] == Extended(ways[1..], r);
      WithoutExtended(ways[1..], r, tickets);
    }
  }

  /** `presentable`, on a policy. */
  function Presentable(policy: Policy, tickets: set<nat>): Option<Policy>
    decreases policy
  {
    match policy
    case Scheme(id) => if id in tickets then None else Some(policy)
    case Either(members) =>
      var kept := PresentableOf(members, tickets);
      if kept == [] then None else if |kept| == 1 then Some(kept[0]) else Some(Either(kept))
    case Required(inner, r) =>
      var kept := Presentable(inner, tickets);
      if kept.None? then None else Some(Required(kept.value, r))
  }

  function PresentableOf(members: seq<Policy>, tickets: set<nat>): seq<Policy>
    decreases members
  {
    if members == [] then []
    else
      var first := Presentable(members[0], tickets);
      (if first.None? then [] else [first.value]) + PresentableOf(members[1..], tickets)
  }

  /** Its ways are the policy's own, in order, save those of the schemes left out; none are left when it is None. */
  lemma {:induction false} PresentableKeepsWays(policy: Policy, tickets: set<nat>)
    ensures var kept := Presentable(policy, tickets);
      (if kept.None? then [] else Ways(kept.value)) == Without(Ways(policy), tickets)
    ensures Presentable(policy, tickets).Some? ==> Without(Ways(policy), tickets) != []
    decreases policy
  {
    match policy
    case Scheme(id) =>
      assert Ways(policy)[1..] == [];
    case Either(members) =>
      PresentableKeepsAll(members, tickets);
      var kept := PresentableOf(members, tickets);
      if |kept| == 1 {
        assert kept == [kept[0]] && kept[1..] == [];
        assert WaysOfAll(kept) == Ways(kept[0]) + WaysOfAll([]) == Ways(kept[0]);
      }
    case Required(inner, r) =>
      PresentableKeepsWays(inner, tickets);
      WithoutExtended(Ways(inner), r, tickets);
  }

  lemma {:induction false} PresentableKeepsAll(members: seq<Policy>, tickets: set<nat>)
    ensures WaysOfAll(PresentableOf(members, tickets)) == Without(WaysOfAll(members), tickets)
    ensures PresentableOf(members, tickets) != [] ==> Without(WaysOfAll(members), tickets) != []
    decreases members
  {
    if members != [] {
      PresentableKeepsWays(members[0], tickets);
      PresentableKeepsAll(members[1..], tickets);
      WithoutJoins(Ways(members[0]), WaysOfAll(members[1..]), tickets);
      var first, rest := Presentable(members[0], tickets), PresentableOf(members[1..], tickets);
      if first.Some? {
        assert ([first.value] + rest)[1..] == rest;
      } else {
        assert PresentableOf(members, tickets) == rest;
      }
    }
  }
}
