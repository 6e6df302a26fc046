/**
 A policy as an OpenAPI operation lists it (`security` in python/oxbrook/_auth.py). The listing can only
 name scopes; it is proved to say of scopes exactly what the policy tree does.
 */
module Listing {
  import opened Util
  import opened Policies

  /** `{name: scopes}`, or `{}`: no credential. */
  datatype Alternative = Needs(name: string, scopes: seq<string>) | NoCredential

  /** What the schemes say of themselves: their names, and which have an `openapi()` entry. */
  datatype Descriptions = Descriptions(name: nat -> string, described: set<nat>, order: set<string> -> seq<string>)

  /** `sorted`: every element of a set, in some fixed order. */
  ghost predicate Orders(d: Descriptions) {
    forall s: set<string>, x: string :: x in d.order(s) <==> x in s
  }

  /** A caller with just the scopes `s` meets what a requirement asks of scopes. */
  predicate ScopesMeet(r: Requirement, s: set<string>) {
    r.allOf <= s && (r.anyOf == {} || r.anyOf * s != {})
  }

  function ByScopes(s: set<string>): Requirement -> bool {
    r => ScopesMeet(r, s)
  }

  predicate Fits(scopes: seq<string>, s: set<string>) {
    forall x :: x in scopes ==> x in s
  }

  ghost predicate SomeFits(choices: seq<seq<string>>, s: set<string>) {
    exists k :: 0 <= k < |choices| && Fits(choices[k], s)
  }

  function NotIn(more: seq<string>, scopes: seq<string>): (r: seq<string>)
    ensures forall x :: x in r <==> x in more && x !in scopes
  {
    if more == [] then [] else (if more[0] in scopes then [] else [more[0]]) + NotIn(more[1..], scopes)
  }

  /** Each choice with each scope after it. */
  function EachWith(choice: seq<string>, scopes: seq<string>): (r: seq<seq<string>>)
    ensures |r| == |scopes| && forall i :: 0 <= i < |r| ==> r[i] == choice + [scopes[i]]
  {
    seq(|scopes|, i requires 0 <= i < |scopes| => choice + [scopes[i]])
  }

  function Cross(choices: seq<seq<string>>, scopes: seq<string>): seq<seq<string>> {
    if choices == [] then [] else EachWith(choices[0], scopes) + Cross(choices[1..], scopes)
  }

  lemma SomeFitsJoins(a: seq<seq<string>>, b: seq<seq<string>>, s: set<string>)
    ensures SomeFits(a + b, s) <==> SomeFits(a, s) || SomeFits(b, s)
  {
    if k :| 0 <= k < |a + b| && Fits((a + b)[k], s) {
      assert (a + b)[k] == if k < |a| then a[k] else b[k - |a|];
    }
    if k :| 0 <= k < |a| && Fits(a[k], s) {
      assert (a + b)[k] == a[k];
    }
    if k :| 0 <= k < |b| && Fits(b[k], s) {
      assert (a + b)[|a| + k] == b[k];
    }
  }

  lemma {:induction false} CrossFits(choices: seq<seq<string>>, scopes: seq<string>, s: set<string>)
    ensures SomeFits(Cross(choices, scopes), s) <==> SomeFits(choices, s) && exists x :: x in scopes && x in s
  {
    if choices != [] {
      CrossFits(choices[1..], scopes, s);
      EachFits(choices[0], scopes, s);
      SomeFitsJoins(EachWith(choices[0], scopes), Cross(choices[1..], scopes), s);
      assert choices == [choices[0]] + choices[1..];
      SomeFitsJoins([choices[0]], choices[1..], s);
      assert [choices[0]][0] == choices[0];
    }
  }

  lemma EachFits(choice: seq<string>, scopes: seq<string>, s: set<string>)
    ensures SomeFits(EachWith(choice, scopes), s) <==> Fits(choice, s) && exists x :: x in scopes && x in s
  {
    if x :| x in scopes && x in s && Fits(choice, s) {
      var i :| 0 <= i < |scopes| && scopes[i] == x;
      assert EachWith(choice, scopes)[i] == choice + [x];
      assert Fits(EachWith(choice, scopes)[i], s);
    }
    if i :| 0 <= i < |scopes| && Fits(EachWith(choice, scopes)[i], s) {
      var each := EachWith(choice, scopes)[i];
      assert each == choice + [scopes[i]] && each[|choice|] == scopes[i] && scopes[i] in s;
      assert forall x :: x in choice ==> x in each;
    }
  }

  /** What the scopes and choices gathered from an option's requirements say together. */
  ghost predicate Gathered(requirements: seq<Requirement>, scopes: seq<string>, choices: seq<seq<string>>,
                           s: set<string>) {
    Fits(scopes, s) && SomeFits(choices, s) <==> AllMet(requirements, ByScopes(s))
  }

  lemma GatherOne(d: Descriptions, before: seq<Requirement>, r: Requirement, scopes: seq<string>,
                  choices: seq<seq<string>>, s: set<string>)
    requires Orders(d) && Gathered(before, scopes, choices, s)
    ensures Gathered(before + [r], scopes + NotIn(d.order(r.allOf), scopes),
                     if r.anyOf == {} then choices else Cross(choices, d.order(r.anyOf)), s)
  {
    var more := scopes + NotIn(d.order(r.allOf), scopes);
    AllMetAlso(before, r, ByScopes(s));
    assert forall x :: x in more <==> x in scopes || x in r.allOf;
    if Fits(more, s) {
      assert forall x :: x in scopes ==> x in more;
      assert forall x :: x in r.allOf ==> x in more;
    }
    CrossFits(choices, d.order(r.anyOf), s);
    if x :| x in r.anyOf && x in s {
      assert x in r.anyOf * s && x in d.order(r.anyOf);
    }
  }

  /** The alternatives of one option: every scope all its requirements name, and one of each `any_of`. */
  method AlternativesOf(d: Descriptions, name: string, requirements: seq<Requirement>)
    returns (alternatives: seq<Alternative>)
    requires Orders(d)
    ensures forall a :: a in alternatives ==> a.Needs? && a.name == name
    ensures forall s :: Lists(alternatives, name, s) <==> AllMet(requirements, ByScopes(s))
  {
    var scopes: seq<string>, choices: seq<seq<string>> := [], [[]];
    forall s
      ensures Gathered([], scopes, choices, s)
    {
      assert Fits(choices[0], s);
    }
    for k := 0 to |requirements|
      invariant forall s :: Gathered(requirements[..k], scopes, choices, s)
    {
      assert requirements[..k + 1] == requirements[..k] + [requirements[k]];
      var more := scopes + NotIn(d.order(requirements[k].allOf), scopes);
      var wider := if requirements[k].anyOf == {} then choices else Cross(choices, d.order(requirements[k].anyOf));
      ghost var upTo := requirements[..k + 1];
      forall s
        ensures Gathered(upTo, more, wider, s)
      {
        GatherOne(d, requirements[..k], requirements[k], scopes, choices, s);
      }
      scopes, choices := more, wider;
    }
    assert requirements[..|requirements|] == requirements;
    alternatives := [];
    for k := 0 to |choices|
      invariant |alternatives| == k
      invariant forall i :: 0 <= i < k ==> alternatives[i] == Needs(name, scopes + NotIn(choices[i], scopes))
    {
      alternatives := alternatives + [Needs(name, scopes + NotIn(choices[k], scopes))];
    }
    forall s
      ensures Lists(alternatives, name, s) <==> AllMet(requirements, ByScopes(s))
    {
      AlternativesFit(alternatives, name, scopes, choices, s);
      assert Gathered(requirements, scopes, choices, s);
    }
  }

  lemma AlternativesFit(alternatives: seq<Alternative>, name: string, scopes: seq<string>, choices: seq<seq<string>>,
                        s: set<string>)
    requires |alternatives| == |choices|
    requires forall i :: 0 <= i < |choices| ==> alternatives[i] == Needs(name, scopes + NotIn(choices[i], scopes))
    ensures Lists(alternatives, name, s) <==> Fits(scopes, s) && SomeFits(choices, s)
  {
    forall i | 0 <= i < |choices|
      ensures Fits(alternatives[i].scopes, s) <==> Fits(scopes, s) && Fits(choices[i], s)
    {
      var all := scopes + NotIn(choices[i], scopes);
      assert forall x :: x in all <==> x in scopes || x in choices[i];
    }
    if i :| 0 <= i < |choices| && Fits(choices[i], s) && Fits(scopes, s) {
      assert alternatives[i] in alternatives;
    }
  }

  /** A caller with the scopes `s` satisfies some listed alternative of `name`. */
  ghost predicate Lists(listed: seq<Alternative>, name: string, s: set<string>) {
    exists a :: a in listed && a.Needs? && a.name == name && Fits(a.scopes, s)
  }

  /** What is not listed yet is added. */
  method AddNew(listed: seq<Alternative>, alternatives: seq<Alternative>) returns (all: seq<Alternative>)
    requires Distinct(listed)
    ensures Distinct(all) && forall a :: a in all <==> a in listed || a in alternatives
  {
    all := listed;
    for k := 0 to |alternatives|
      invariant Distinct(all) && forall a :: a in all <==> a in listed || a in alternatives[..k]
    {
      if alternatives[k] !in all {
        all := all + [alternatives[k]];
      }
    }
  }

  predicate Distinct(listed: seq<Alternative>) {
    forall i, j :: 0 <= i < j < |listed| ==> listed[i] != listed[j]
  }

  lemma ListsEither(listed: seq<Alternative>, more: seq<Alternative>, all: seq<Alternative>, name: string,
                    s: set<string>)
    requires forall a :: a in all <==> a in listed || a in more
    ensures Lists(all, name, s) <==> Lists(listed, name, s) || Lists(more, name, s)
  {
  }

  lemma SomeOptionFront(options: seq<seq<Requirement>>, k: nat, s: set<string>)
    requires k < |options|
    ensures SomeOption(options[..k + 1], ByScopes(s)) <==>
      SomeOption(options[..k], ByScopes(s)) || AllMet(options[k], ByScopes(s))
  {
    assert options[..k + 1] == options[..k] + [options[k]];
    SomeOptionMore(options[..k], options[k], ByScopes(s));
  }

  /** A described scheme of that name has an option those scopes meet. */
  ghost predicate GroupMeets(d: Descriptions, g: Group, name: string, s: set<string>) {
    g.id in d.described && d.name(g.id) == name && SomeOption(g.options, ByScopes(s))
  }

  /** The alternatives of one scheme, added to those listed. */
  method ListScheme(d: Descriptions, g: Group, listed: seq<Alternative>) returns (all: seq<Alternative>)
    requires Orders(d) && Distinct(listed) && NoCredential !in listed && g.id in d.described
    ensures Distinct(all) && NoCredential !in all
    ensures forall n, s :: Lists(all, n, s) <==> Lists(listed, n, s) || GroupMeets(d, g, n, s)
  {
    all := listed;
    var name := d.name(g.id);
    for k := 0 to |g.options|
      invariant Distinct(all) && NoCredential !in all
      invariant forall n, s ::
        Lists(all, n, s) <==> Lists(listed, n, s) || (n == name && SomeOption(g.options[..k], ByScopes(s)))
    {
      var more := AlternativesOf(d, name, g.options[k]);
      var was := all;
      all := AddNew(all, more);
      forall n, s
        ensures Lists(all, n, s) <==> Lists(listed, n, s) || (n == name && SomeOption(g.options[..k + 1], ByScopes(s)))
      {
        ListsEither(was, more, all, n, s);
        SomeOptionFront(g.options, k, s);
      }
    }
    assert g.options[..|g.options|] == g.options;
  }

  method Security(d: Descriptions, policy: Policy, optional: bool)
    returns (listed: seq<Alternative>, used: map<string, nat>)
    requires Orders(d)
    ensures Distinct(listed)
    ensures NoCredential in listed <==> optional
    ensures forall n, s :: Lists(listed, n, s) <==> TreeMeets(d, policy, n, s)
    ensures forall n :: n in used <==> exists id :: id in Written(policy) && id in d.described && d.name(id) == n
    ensures forall n :: n in used ==> used[n] in Written(policy) && used[n] in d.described && d.name(used[n]) == n
  {
    var groups := Plan(policy);
    listed, used := [], map[];
    for k := 0 to |groups|
      invariant Distinct(listed) && NoCredential !in listed
      invariant forall n, s :: Lists(listed, n, s) <==> exists j :: 0 <= j < k && GroupMeets(d, groups[j], n, s)
      invariant forall n :: n in used <==>
        exists j :: 0 <= j < k && groups[j].id in d.described && d.name(groups[j].id) == n
      invariant forall n :: n in used ==> used[n] in GroupIds(groups) && used[n] in d.described && d.name(used[n]) == n
    {
      if groups[k].id in d.described {
        assert groups[k].id == GroupIds(groups)[k];
        used := used[d.name(groups[k].id) := groups[k].id];
        listed := ListScheme(d, groups[k], listed);
      }
    }
    GroupsAreTheTree(d, policy, groups);
    if optional {
      ghost var before := listed;
      listed := listed + [NoCredential];
      forall n, s
        ensures Lists(listed, n, s) <==> Lists(before, n, s)
      {
        assert forall a :: a in listed <==> a in before || a == NoCredential;
      }
    }
  }

  /** Some described scheme of that name is reached in the tree with every requirement's scopes met. */
  ghost predicate TreeMeets(d: Descriptions, policy: Policy, name: string, s: set<string>) {
    exists id :: id in Written(policy) && id in d.described && d.name(id) == name && Opens(policy, id, ByScopes(s))
  }

  lemma GroupsAreTheTree(d: Descriptions, policy: Policy, groups: seq<Group>)
    requires Grouped(Ways(policy), groups)
    ensures forall id :: id in GroupIds(groups) <==> id in Written(policy)
    ensures forall n, s :: TreeMeets(d, policy, n, s) <==>
      exists j :: 0 <= j < |groups| && GroupMeets(d, groups[j], n, s)
  {
    WaysAreInWrittenOrder(policy);
    FirstsAreDistinct(Written(policy));
    forall j, s | 0 <= j < |groups|
      ensures SomeOption(groups[j].options, ByScopes(s)) <==> Opens(policy, groups[j].id, ByScopes(s))
    {
      OptionsAreWays(Ways(policy), groups[j].id, ByScopes(s));
      WaysAreThePaths(policy, groups[j].id, ByScopes(s));
    }
    forall n, s
      ensures TreeMeets(d, policy, n, s) <==> exists j :: 0 <= j < |groups| && GroupMeets(d, groups[j], n, s)
    {
      if id :| id in Written(policy) && id in d.described && d.name(id) == n && Opens(policy, id, ByScopes(s)) {
        var j :| 0 <= j < |groups| && GroupIds(groups)[j] == id;
        assert GroupMeets(d, groups[j], n, s);
      }
      if j :| 0 <= j < |groups| && GroupMeets(d, groups[j], n, s) {
        assert GroupIds(groups)[j] == groups[j].id;
      }
    }
  }

  /** Another described scheme of the policy has its name, and those scopes open the tree to that one alone. */
  ghost predicate Overshadowed(d: Descriptions, policy: Policy, id: nat, s: set<string>) {
    exists o :: o in Written(policy) && o in d.described && d.name(o) == d.name(id) && o != id
                && Opens(policy, o, ByScopes(s)) && !Opens(policy, id, ByScopes(s))
  }

  /**
   Exactly when the listing can be believed of a described scheme: a set of scopes contains some alternative
   listed under its name if and only if it meets every requirement on some path of the tree to it, unless
   another scheme of that name is opened by those scopes where it is not.
   */
  lemma ListingIsExactIff(d: Descriptions, policy: Policy, listed: seq<Alternative>, id: nat, s: set<string>)
    requires forall n, t :: Lists(listed, n, t) <==> TreeMeets(d, policy, n, t)
    requires id in Written(policy) && id in d.described
    ensures (Lists(listed, d.name(id), s) <==> Opens(policy, id, ByScopes(s))) <==> !Overshadowed(d, policy, id, s)
    ensures Opens(policy, id, ByScopes(s)) ==> Lists(listed, d.name(id), s)
  {
    assert Lists(listed, d.name(id), s) <==> TreeMeets(d, policy, d.name(id), s);
    if Opens(policy, id, ByScopes(s)) {
      assert TreeMeets(d, policy, d.name(id), s);
    }
  }

  /** So it is exact of a name that no two described schemes of the policy share. */
  lemma ListingIsExact(d: Descriptions, policy: Policy, listed: seq<Alternative>, id: nat, s: set<string>)
    requires forall n, t :: Lists(listed, n, t) <==> TreeMeets(d, policy, n, t)
    requires id in Written(policy) && id in d.described
    requires forall o :: o in Written(policy) && o in d.described && d.name(o) == d.name(id) ==> o == id
    ensures Lists(listed, d.name(id), s) <==> Opens(policy, id, ByScopes(s))
  {
    ListingIsExactIff(d, policy, listed, id, s);
  }

  /** Sharing a name breaks it: scopes fit an alternative listed under a scheme's name and that scheme refuses them. */
  lemma SharedNamesMislead(d: Descriptions, listed: seq<Alternative>, a: Requirement, b: Requirement, s: set<string>)
    requires d.described == {0, 1} && d.name(0) == d.name(1) && ScopesMeet(b, s) && !ScopesMeet(a, s)
    requires var policy := Either([Required(Scheme(0), a), Required(Scheme(1), b)]);
      forall n, t :: Lists(listed, n, t) <==> TreeMeets(d, policy, n, t)
    ensures var policy := Either([Required(Scheme(0), a), Required(Scheme(1), b)]);
      !Opens(policy, 0, ByScopes(s)) && Lists(listed, d.name(0), s)
  {
    var first, second := Required(Scheme(0), a), Required(Scheme(1), b);
    var members, rest := [first, second], [second];
    assert members[1..] == rest && rest[1..] == [];
    assert WrittenInAll(rest) == Written(second) + WrittenInAll([]) == [1];
    assert WrittenInAll(members) == Written(first) + WrittenInAll(rest) == [0, 1];
    var policy := Either(members);
    assert !Opens(members[0], 0, ByScopes(s)) && !Opens(members[1], 0, ByScopes(s));
    assert Opens(Scheme(1), 1, ByScopes(s));
    assert Opens(members[1], 1, ByScopes(s));
    assert Opens(policy, 1, ByScopes(s));
    assert Written(policy)[1] == 1 && 1 in d.described;
    assert TreeMeets(d, policy, d.name(0), s);
  }
}
