/** What a gate keeps of its limits, and what re-checking a socket without its ticket schemes decides. */
module GateLaws {
  import opened Util
  import opened Policies
  import opened Gates

  /** One pass takes from limit `i` exactly when every limit before it allowed, and never twice. */
  lemma OnePass(w: World, from: nat, n: nat, who: Option<Principal>)
    ensures var t := Taken(w, from, n, who);
      && (forall i, j :: 0 <= i < j < |t| ==> t[i] != t[j])
      && (forall i :: 0 <= i < n ==> ((from + i, who) in t <==> AllAllow(w, from, i, who)))
      && (AllAllow(w, from, n, who) ==> |t| == n)
  {
    var t := Taken(w, from, n, who);
    forall i | 0 <= i < n
      ensures (from + i, who) in t <==> i < |t|
      ensures i < |t| <==> AllAllow(w, from, i, who)
    {
      if i < |t| {
        assert t[i] == (from + i, who);
      }
    }
  }

  /**
   Every request charges every limit exactly once, unless a limit refuses it or a scheme fails: then those
   after the refusal, or the caller's, are not charged at all.
   */
  lemma ChargedOnce(d: Declaration, w: World, limits: Limits)
    ensures var t := Charged(d, w, limits);
      && (forall i, j :: 0 <= i < j < |t| ==> t[i].0 < t[j].0)
      && (FirstAllow(w, limits) && OwnAllow(d, w, limits) ==>
            (|t| == limits.first + limits.own <==> !SchemeFails(d, w) || limits.own == 0))
  {
  }

  // ----- Sockets re-checked without tickets -----

  /** The world in which no ticket is presented. */
  function Ticketless(w: World, tickets: set<nat>): World {
    w.(find := (id: nat) => if id in tickets then Nothing else w.find(id))
  }

  function IdsWithout(ids: seq<nat>, tickets: set<nat>): seq<nat> {
    if ids == [] then [] else (if ids[0] in tickets then [] else [ids[0]]) + IdsWithout(ids[1..], tickets)
  }

  lemma {:induction false} IdsOfWithout(ways: seq<Way>, tickets: set<nat>)
    ensures Ids(Without(ways, tickets)) == IdsWithout(Ids(ways), tickets)
  {
    if ways != [] {
      assert Ids(ways)[1..] == Ids(ways[1..]);
      IdsOfWithout(ways[1..], tickets);
    }
  }

  lemma {:induction false} FoundWithout(ids: seq<nat>, w: World, tickets: set<nat>)
    ensures FirstFound(IdsWithout(ids, tickets), w.find) == FirstFound(ids, Ticketless(w, tickets).find)
  {
    if ids != [] {
      FoundWithout(ids[1..], w, tickets);
      var rest := IdsWithout(ids[1..], tickets);
      if ids[0] !in tickets {
        assert IdsWithout(ids, tickets)[1..] == rest;
      } else {
        assert IdsWithout(ids, tickets) == rest;
      }
    }
  }

  lemma {:induction false} OptionsWithout(ways: seq<Way>, tickets: set<nat>, id: nat)
    requires id !in tickets
    ensures OptionsOf(Without(ways, tickets), id) == OptionsOf(ways, id)
  {
    if ways != [] {
      var front, last := ways[..|ways| - 1], ways[|ways| - 1];
      assert ways == front + [last];
      OptionsWithout(front, tickets, id);
      WithoutJoins(front, [last], tickets);
      assert [last][1..] == [];
      if last.id !in tickets {
        assert (Without(front, tickets) + [last])[..|Without(front, tickets)|] == Without(front, tickets);
      } else {
        assert Without(ways, tickets) == Without(front, tickets);
      }
    }
  }

  lemma OptionsDecidePassing(d: Declaration, w: World, other: Declaration, v: World)
    requires Caller(d, w) == Caller(other, v) && Caller(d, w).Some? && Seen(d, w) == Seen(other, v)
    requires w.check == v.check
    requires OptionsOf(Ways(d.policy), Seen(d, w).value) == OptionsOf(Ways(other.policy), Seen(d, w).value)
    ensures Passes(d, w) <==> Passes(other, v)
    ensures CheckRaises(d, w) <==> CheckRaises(other, v)
  {
    var id, p := Seen(d, w).value, Caller(d, w).value;
    PassesIffSomeOption(d, w);
    PassesIffSomeOption(other, v);
    SameVerdicts(w, v, OptionsOf(Ways(d.policy), id), p);
  }

  lemma SameVerdicts(w: World, v: World, options: seq<seq<Requirement>>, p: Principal)
    requires w.check == v.check
    ensures SomeOption(options, IsMet(w, p)) <==> SomeOption(options, IsMet(v, p))
    ensures RaisesFirst(w, options, p) <==> RaisesFirst(v, options, p)
  {
    forall k | 0 <= k < |options|
      ensures OptionVerdict(w, options[k], p) == OptionVerdict(v, options[k], p)
      ensures AllMet(options[k], IsMet(w, p)) <==> AllMet(options[k], IsMet(v, p))
    {
      SameVerdict(w, v, options[k], p);
    }
  }

  lemma {:induction false} SameVerdict(w: World, v: World, requirements: seq<Requirement>, p: Principal)
    requires w.check == v.check
    ensures OptionVerdict(w, requirements, p) == OptionVerdict(v, requirements, p)
  {
    if requirements != [] {
      SameVerdict(w, v, requirements[1..], p);
    }
  }

  /**
   What a socket is checked against again decides as the whole policy would for a request without a
   ticket: same caller, same refusal, same limits charged. There is nothing to check against exactly when
   every scheme is a ticket's.
   */
  lemma PresentableKeepsTheMeaning(d: Declaration, w: World, tickets: set<nat>, limits: Limits)
    ensures Presentable(d.policy, tickets).None? <==> forall id :: id in Written(d.policy) ==> id in tickets
    ensures Presentable(d.policy, tickets).Some? ==>
      var again, blind := Declaration(Presentable(d.policy, tickets).value, d.optional), Ticketless(w, tickets);
      Judged(again, w, limits) == Judged(d, blind, limits) && Charged(again, w, limits) == Charged(d, blind, limits)
  {
    PresentableKeepsWays(d.policy, tickets);
    WaysAreInWrittenOrder(d.policy);
    NoneWithout(Ways(d.policy), tickets);
    if Presentable(d.policy, tickets).Some? {
      var again, blind := Declaration(Presentable(d.policy, tickets).value, d.optional), Ticketless(w, tickets);
      SeenAgain(d, w, tickets);
      var seen := Seen(again, w);
      assert seen.Some? ==> seen.value !in tickets && blind.find(seen.value) == w.find(seen.value);
      assert Caller(again, w) == Caller(d, blind);
      if Caller(again, w).Some? {
        OptionsWithout(Ways(d.policy), tickets, seen.value);
        OptionsDecidePassing(again, w, d, blind);
      }
      SameCallerSameOutcome(again, w, d, blind, limits);
    }
  }

  lemma {:induction false} SameTaken(w: World, v: World, from: nat, n: nat, who: Option<Principal>)
    requires w.allows == v.allows
    ensures Taken(w, from, n, who) == Taken(v, from, n, who)
  {
    if n > 0 {
      SameTaken(w, v, from, n - 1, who);
    }
  }

  /** The same caller, the same verdict on it: the same decision and the same charges. */
  lemma SameCallerSameOutcome(d: Declaration, w: World, other: Declaration, v: World, limits: Limits)
    requires w.allows == v.allows && d.optional == other.optional
    requires Seen(d, w) == Seen(other, v) && Caller(d, w) == Caller(other, v)
      && SchemeFails(d, w) == SchemeFails(other, v)
    requires Caller(d, w).Some? ==> Passes(d, w) == Passes(other, v) && CheckRaises(d, w) == CheckRaises(other, v)
    ensures Judged(d, w, limits) == Judged(other, v, limits) && Charged(d, w, limits) == Charged(other, v, limits)
  {
    SameTaken(w, v, 0, limits.first, None);
    SameTaken(w, v, limits.first, limits.own, Caller(d, w));
  }

  lemma {:induction false} NoneWithout(ways: seq<Way>, tickets: set<nat>)
    ensures Without(ways, tickets) == [] <==> forall id :: id in Ids(ways) ==> id in tickets
  {
    if ways != [] {
      assert Ids(ways) == [ways[0].id] + Ids(ways[1..]);
      NoneWithout(ways[1..], tickets);
    }
  }

  lemma SeenAgain(d: Declaration, w: World, tickets: set<nat>)
    requires Presentable(d.policy, tickets).Some?
    ensures var again := Declaration(Presentable(d.policy, tickets).value, d.optional);
      && Seen(again, w) == Seen(d, Ticketless(w, tickets))
      && Ways(again.policy) == Without(Ways(d.policy), tickets)
      && (Seen(again, w).Some? ==> Seen(again, w).value !in tickets)
  {
    var again := Declaration(Presentable(d.policy, tickets).value, d.optional);
    PresentableKeepsWays(d.policy, tickets);
    WaysAreInWrittenOrder(d.policy);
    WaysAreInWrittenOrder(again.policy);
    IdsOfWithout(Ways(d.policy), tickets);
    FoundWithout(Written(d.policy), w, tickets);
  }
}
