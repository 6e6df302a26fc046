/**
 The gate of a route (python/oxbrook/_auth.py): the loops of `__call__`, `spend` and `permits` over the
 compiled plan, each proved to decide what the policy tree means. Checks, schemes and limiters are the
 caller's; they appear as the functions of a `World`. A scheme that returns something other than a
 principal counts as one that raises.
 */
module Gates {
  import opened Util
  import opened Policies

  /** What a scheme makes of a request; `Failed` is any other exception, an HTTP error or not. */
  datatype Finding = Nothing | Wrong | Failed(http: bool) | Found(principal: Principal)

  datatype Verdict = Yes | No | Raises

  datatype World = World(
    find: nat -> Finding,
    name: nat -> string,
    check: (nat, Principal) -> Verdict,
    allows: (nat, Option<Principal>) -> bool)

  datatype Outcome =
    | Admitted(principal: Principal)
    | Anonymous
    | Unauthenticated(raisedBy: Option<nat>)
    | Forbidden(scheme: nat)
    | Limited
    | Error

  // ----- Requirements -----

  /** `Requirement.met`. */
  function Met(w: World, r: Requirement, p: Principal): Verdict {
    if !(r.allOf <= p.scopes) then No
    else if r.anyOf != {} && r.anyOf * p.scopes == {} then No
    else if !(r.roles <= p.roles) then No
    else if r.check.Some? then w.check(r.check.value, p)
    else Yes
  }

  function IsMet(w: World, p: Principal): Requirement -> bool {
    r => Met(w, r, p) == Yes
  }

  /** One option in order: the first requirement that is not met decides. */
  function OptionVerdict(w: World, requirements: seq<Requirement>, p: Principal): (v: Verdict)
    ensures v == Yes <==> AllMet(requirements, IsMet(w, p))
  {
    if requirements == [] then Yes
    else
      var first := Met(w, requirements[0], p);
      var v := if first == Yes then OptionVerdict(w, requirements[1..], p) else first;
      assert requirements == [requirements[0]] + requirements[1..];
      v
  }

  /** Some option raises and none before it is met. */
  ghost predicate RaisesFirst(w: World, options: seq<seq<Requirement>>, p: Principal) {
    exists k :: 0 <= k < |options| && OptionVerdict(w, options[k], p) == Raises
      && forall j :: 0 <= j < k ==> OptionVerdict(w, options[j], p) != Yes
  }

  // ----- What a declaration decides, read on its tree -----

  /** The first scheme, in written order, that found a credential of its kind. */
  function FirstFound(ids: seq<nat>, find: nat -> Finding): (r: Option<nat>)
    ensures r.Some? ==> r.value in ids && find(r.value) != Nothing
    ensures r.None? <==> forall i :: i in ids ==> find(i) == Nothing
  {
    if ids == [] then None
    else if find(ids[0]) != Nothing then Some(ids[0])
    else FirstFound(ids[1..], find)
  }

  function Named(w: World, id: nat, p: Principal): Principal {
    if p.scheme == "" then p.(scheme := w.name(id)) else p
  }

  function Seen(d: Declaration, w: World): Option<nat> {
    FirstFound(Written(d.policy), w.find)
  }

  /** Who the limits are charged to: the caller found, or nobody, also for a credential that failed. */
  function Caller(d: Declaration, w: World): Option<Principal> {
    var seen := Seen(d, w);
    if seen.Some? && w.find(seen.value).Found? then Some(Named(w, seen.value, w.find(seen.value).principal)) else None
  }

  /** Some path of the tree to the scheme that found the caller has all its requirements met. */
  ghost predicate Passes(d: Declaration, w: World)
    requires Caller(d, w).Some?
  {
    Opens(d.policy, Seen(d, w).value, IsMet(w, Caller(d, w).value))
  }

  ghost predicate CheckRaises(d: Declaration, w: World)
    requires Caller(d, w).Some?
  {
    RaisesFirst(w, OptionsOf(Ways(d.policy), Seen(d, w).value), Caller(d, w).value)
  }

  predicate SchemeFails(d: Declaration, w: World) {
    Seen(d, w).Some? && w.find(Seen(d, w).value).Failed?
  }

  /** Each of `n` limits, from the `from`-th, allows `who`. */
  predicate AllAllow(w: World, from: nat, n: nat, who: Option<Principal>) {
    forall i :: from <= i < from + n ==> w.allows(i, who)
  }

  /**
   How many limits are charged before anyone is authenticated, to the address or a header; and how many to
   the caller, those of this process first. They are numbered in that order.
   */
  datatype Limits = Limits(first: nat, own: nat)

  predicate FirstAllow(w: World, limits: Limits) {
    AllAllow(w, 0, limits.first, None)
  }

  predicate OwnAllow(d: Declaration, w: World, limits: Limits) {
    AllAllow(w, limits.first, limits.own, Caller(d, w))
  }

  ghost function Judged(d: Declaration, w: World, limits: Limits): Outcome {
    if FirstAllow(w, limits) then JudgedPastFirst(d, w, limits) else Limited
  }

  /** What is decided once the first limits have allowed the request. */
  ghost function JudgedPastFirst(d: Declaration, w: World, limits: Limits): Outcome {
    if SchemeFails(d, w) then Error
    else if !OwnAllow(d, w, limits) then Limited
    else if Caller(d, w).Some? then
      if CheckRaises(d, w) then Error
      else if Passes(d, w) then Admitted(Caller(d, w).value)
      else Forbidden(Seen(d, w).value)
    else if Seen(d, w).Some? then Unauthenticated(Seen(d, w))
    else if d.optional then Anonymous
    else Unauthenticated(None)
  }

  // ----- The plan searches as the tree reads -----

  lemma {:induction false} FirstOfFirsts(ids: seq<nat>, find: nat -> Finding, k: nat)
    requires k < |Firsts(ids)| && find(Firsts(ids)[k]) != Nothing
    requires forall j :: 0 <= j < k ==> find(Firsts(ids)[j]) == Nothing
    ensures FirstFound(ids, find) == Some(Firsts(ids)[k])
  {
    if ids != [] {
      var front, last := ids[..|ids| - 1], ids[|ids| - 1];
      assert ids == front + [last];
      FirstsAreDistinct(front);
      assert forall j :: 0 <= j < |Firsts(front)| ==> Firsts(ids)[j] == Firsts(front)[j];
      if k < |Firsts(front)| {
        FirstOfFirsts(front, find, k);
      } else {
        assert forall i :: i in front ==> i in Firsts(front);
      }
      FoundInFront(front, last, find);
    }
  }

  lemma {:induction false} FoundInFront(ids: seq<nat>, last: nat, find: nat -> Finding)
    ensures FirstFound(ids + [last], find) ==
            if FirstFound(ids, find).Some? then FirstFound(ids, find)
            else if find(last) != Nothing then Some(last)
            else None
  {
    if ids != [] {
      assert (ids + [last])[1..] == ids[1..] + [last];
      FoundInFront(ids[1..], last, find);
    }
  }

  /** A group that is the first to find something is the scheme the tree would ask, with its ways as options. */
  lemma GroupIsSeen(d: Declaration, w: World, groups: seq<Group>, k: nat)
    requires Grouped(Ways(d.policy), groups) && k <= |groups|
    requires forall j :: 0 <= j < k ==> w.find(groups[j].id) == Nothing
    requires k < |groups| ==> w.find(groups[k].id) != Nothing
    ensures Seen(d, w) == if k < |groups| then Some(groups[k].id) else None
    ensures k < |groups| ==> groups[k].options == OptionsOf(Ways(d.policy), groups[k].id)
  {
    WaysAreInWrittenOrder(d.policy);
    var ids := Written(d.policy);
    FirstsAreDistinct(ids);
    assert forall j :: 0 <= j < |groups| ==> groups[j].id == Firsts(ids)[j];
    if k < |groups| {
      FirstOfFirsts(ids, w.find, k);
    } else {
      assert forall i :: i in ids ==> i in Firsts(ids);
    }
  }

  lemma PassesIffSomeOption(d: Declaration, w: World)
    requires Caller(d, w).Some?
    ensures Passes(d, w) <==> SomeOption(OptionsOf(Ways(d.policy), Seen(d, w).value), IsMet(w, Caller(d, w).value))
  {
    var id, met := Seen(d, w).value, IsMet(w, Caller(d, w).value);
    OptionsAreWays(Ways(d.policy), id, met);
    WaysAreThePaths(d.policy, id, met);
  }

  // ----- The gate -----

  /** What one pass over `n` limits takes: each in turn, to the first that refuses. */
  function Taken(w: World, from: nat, n: nat, who: Option<Principal>): (t: seq<(nat, Option<Principal>)>)
    ensures |t| <= n && forall i :: 0 <= i < |t| ==> t[i] == (from + i, who)
    ensures forall i :: from <= i < from + |t| - 1 ==> w.allows(i, who)
    ensures |t| < n ==> t != [] && !w.allows(from + |t| - 1, who)
    ensures AllAllow(w, from, n, who) ==> |t| == n
  {
    if n == 0 then []
    else
      var t := Taken(w, from, n - 1, who);
      if |t| == n - 1 && (t == [] || w.allows(from + n - 2, who)) then t + [(from + n - 1, who)] else t
  }

  /** All that one call takes: the first limits, then the caller's unless a scheme failed. */
  ghost function Charged(d: Declaration, w: World, limits: Limits): seq<(nat, Option<Principal>)> {
    Taken(w, 0, limits.first, None) + if FirstAllow(w, limits) then ChargedPastFirst(d, w, limits) else []
  }

  ghost function ChargedPastFirst(d: Declaration, w: World, limits: Limits): seq<(nat, Option<Principal>)> {
    if SchemeFails(d, w) then [] else Taken(w, limits.first, limits.own, Caller(d, w))
  }

  class Gate {
    const declaration: Declaration
    const schemes: seq<Group>
    const limits: Limits
    /** Every limit taken from, and for whom. */
    var spent: seq<(nat, Option<Principal>)>

    ghost predicate Valid() {
      Grouped(Ways(declaration.policy), schemes)
    }

    constructor (declaration: Declaration, limits: Limits)
      ensures Valid() && this.declaration == declaration && this.limits == limits && spent == []
    {
      var groups := Plan(declaration.policy);
      this.declaration, schemes, this.limits := declaration, groups, limits;
      spent := [];
    }

    /** One pass over `n` limits, as `spend_shared` and `spend` make it; the latter's two loops are one pass. */
    method Spend(w: World, from: nat, n: nat, who: Option<Principal>) returns (ok: bool)
      modifies `spent
      ensures spent == old(spent) + Taken(w, from, n, who)
      ensures ok == AllAllow(w, from, n, who)
    {
      ghost var taken := Taken(w, from, n, who);
      for i := 0 to n
        invariant AllAllow(w, from, i, who)
        invariant |taken| >= i && spent == old(spent) + taken[..i]
      {
        spent := spent + [(from + i, who)];
        assert |taken| > i && taken[i] == (from + i, who);
        if !w.allows(from + i, who) {
          assert |taken| == i + 1;
          return false;
        }
      }
      ok := true;
    }

    /**
     `__call__` decides what the tree means, and takes one pass over the first limits and one over the
     caller's, in the caller's name if one was found; none of those if a scheme failed.
     */
    method Call(w: World) returns (r: Outcome)
      requires Valid()
      modifies `spent
      ensures r == Judged(declaration, w, limits)
      ensures spent == old(spent) + Charged(declaration, w, limits)
    {
      var ok := Spend(w, 0, limits.first, None);
      if !ok {
        return Limited;
      }
      r := Authenticate(w);
    }

    /** The search, once the first limits have allowed the request. */
    method Authenticate(w: World) returns (r: Outcome)
      requires Valid()
      modifies `spent
      ensures r == JudgedPastFirst(declaration, w, limits)
      ensures spent == old(spent) + ChargedPastFirst(declaration, w, limits)
    {
      for k := 0 to |schemes|
        invariant spent == old(spent)
        invariant forall j :: 0 <= j < k ==> w.find(schemes[j].id) == Nothing
      {
        var id, finding := schemes[k].id, w.find(schemes[k].id);
        if finding != Nothing {
          GroupIsSeen(declaration, w, schemes, k);
          if finding.Failed? {
            return Error;
          }
          var who := if finding.Found? then Some(Named(w, id, finding.principal)) else None;
          var ok := Spend(w, limits.first, limits.own, who);
          if !ok {
            return Limited;
          }
          if finding.Wrong? {
            return Unauthenticated(Some(id));
          }
          var verdict := TryOptions(w, schemes[k].options, who.value);
          PassesIffSomeOption(declaration, w);
          return match verdict case Yes => Admitted(who.value) case No => Forbidden(id) case Raises => Error;
        }
      }
      GroupIsSeen(declaration, w, schemes, |schemes|);
      var ok := Spend(w, limits.first, limits.own, None);
      if !ok {
        return Limited;
      }
      r := if declaration.optional then Anonymous else Unauthenticated(None);
    }

    /** The loops over options and requirements: yes at the first option met, unless one raises before. */
    method TryOptions(w: World, options: seq<seq<Requirement>>, p: Principal) returns (v: Verdict)
      ensures v == Raises <==> RaisesFirst(w, options, p)
      ensures v != Raises ==> (v == Yes <==> SomeOption(options, IsMet(w, p)))
    {
      for k := 0 to |options|
        invariant forall j :: 0 <= j < k ==> OptionVerdict(w, options[j], p) == No
      {
        v := TryOption(w, options[k], p);
        if v != No {
          return;
        }
      }
      v := No;
    }

    method TryOption(w: World, requirements: seq<Requirement>, p: Principal) returns (v: Verdict)
      ensures v == OptionVerdict(w, requirements, p)
    {
      for k := 0 to |requirements|
        invariant OptionVerdict(w, requirements, p) == OptionVerdict(w, requirements[k..], p)
      {
        assert requirements[k..][1..] == requirements[k + 1..];
        v := Met(w, requirements[k], p);
        if v != Yes {
          return;
        }
      }
      v := Yes;
    }

    /** `permits`: the same question without raising, its findings remembered across gates. */
    method Permits(w: World, memo: map<nat, Finding>) returns (r: Option<bool>, known: map<nat, Finding>)
      requires Valid() && Faithful(w, memo)
      ensures r == Listed(declaration, w)
      ensures Faithful(w, known) && memo.Keys <= known.Keys
    {
      known := memo;
      for k := 0 to |schemes|
        invariant Faithful(w, known) && memo.Keys <= known.Keys
        invariant forall j :: 0 <= j < k ==> w.find(schemes[j].id) == Nothing
      {
        var id := schemes[k].id;
        if id !in known {
          var finding := w.find(id);
          if finding == Failed(false) {
            GroupIsSeen(declaration, w, schemes, k);
            return None, known;
          }
          known := known[id := if finding == Failed(true) then Wrong else finding];
        }
        var found := known[id];
        if found != Nothing {
          GroupIsSeen(declaration, w, schemes, k);
          if found.Wrong? {
            return Some(false), known;
          }
          PassesIffSomeOption(declaration, w);
          var ok := SomePasses(w, schemes[k].options, Named(w, id, found.principal));
          return Some(ok), known;
        }
      }
      GroupIsSeen(declaration, w, schemes, |schemes|);
      r := Some(declaration.optional);
    }

    method SomePasses(w: World, options: seq<seq<Requirement>>, p: Principal) returns (ok: bool)
      ensures ok == SomeOption(options, IsMet(w, p))
    {
      for k := 0 to |options|
        invariant forall j :: 0 <= j < k ==> !AllMet(options[j], IsMet(w, p))
      {
        var v := TryOption(w, options[k], p);
        if v == Yes {
          return true;
        }
      }
      ok := false;
    }
  }

  /** A memo says of each scheme what it would find; an HTTP error is remembered as a refusal. */
  predicate Faithful(w: World, memo: map<nat, Finding>) {
    forall id :: id in memo ==>
      w.find(id) != Failed(false) && memo[id] == if w.find(id) == Failed(true) then Wrong else w.find(id)
  }

  /** What `permits` answers, read on the tree; None where it raises. */
  ghost function Listed(d: Declaration, w: World): Option<bool> {
    if Seen(d, w).None? then Some(d.optional)
    else if w.find(Seen(d, w).value) == Failed(false) then None
    else if Caller(d, w).None? then Some(false)
    else Some(Passes(d, w))
  }

  predicate Admits(o: Outcome) {
    o.Admitted? || o.Anonymous?
  }

  /**
   `permits` agrees with `__call__` on every request within its limits, exactly when it is not the case
   that a check raises before the option that would have let the caller in.
   */
  lemma PermitsAgreesIff(d: Declaration, w: World, limits: Limits)
    requires FirstAllow(w, limits) && OwnAllow(d, w, limits)
    ensures (Listed(d, w) == Some(true) <==> Admits(Judged(d, w, limits)))
            <==> !(Caller(d, w).Some? && CheckRaises(d, w) && Passes(d, w))
  {
  }

  /** Where no check of the found scheme's options raises, they always agree. */
  lemma PermitsAgreesWithoutRaising(d: Declaration, w: World, limits: Limits)
    requires FirstAllow(w, limits) && OwnAllow(d, w, limits) && forall c, p :: w.check(c, p) != Raises
    ensures Listed(d, w) == Some(true) <==> Admits(Judged(d, w, limits))
  {
    if Caller(d, w).Some? {
      var options, p := OptionsOf(Ways(d.policy), Seen(d, w).value), Caller(d, w).value;
      forall k | 0 <= k < |options|
        ensures OptionVerdict(w, options[k], p) != Raises
      {
        NoOptionRaises(w, options[k], p);
      }
    }
  }

  lemma {:induction false} NoOptionRaises(w: World, requirements: seq<Requirement>, p: Principal)
    requires forall c, p :: w.check(c, p) != Raises
    ensures OptionVerdict(w, requirements, p) != Raises
  {
    if requirements != [] {
      NoOptionRaises(w, requirements[1..], p);
    }
  }

  lemma StrictOrPlain(r: Requirement, policy: Policy)
    requires policy == Either([Required(Scheme(0), r), Scheme(0)])
    ensures Written(policy) == [0, 0] && OptionsOf(Ways(policy), 0) == [[r], []]
  {
    var plain, strict := Scheme(0), Required(Scheme(0), r);
    var members, rest := [strict, plain], [plain];
    assert members[1..] == rest && rest[1..] == [];
    assert WrittenInAll(rest) == Written(plain) + WrittenInAll([]) == [0];
    assert WrittenInAll(members) == Written(strict) + WrittenInAll(rest) == [0, 0];
    assert Ways(strict) == Extended(Ways(plain), r) == [Way(0, [r])] by {
      assert [] + [r] == [r] && Ways(plain) == [Way(0, [])];
    }
    assert WaysOfAll(rest) == Ways(plain) + WaysOfAll([]) == [Way(0, [])];
    assert WaysOfAll(members) == Ways(strict) + WaysOfAll(rest) == [Way(0, [r]), Way(0, [])];
    var ways := Ways(policy);
    assert ways[..1] == [Way(0, [r])] && ways[..1][..0] == [];
    assert OptionsOf(ways[..1], 0) == [[r]];
  }

  /** And where one does they may not: `a.requires(check=broken) | a` lists a tool it then fails to run. */
  lemma PermitsCanDisagree(w: World, r: Requirement, p: Principal, policy: Policy)
    requires r == Requirement({}, {}, {}, Some(0)) && w.find(0) == Found(p) && w.check(0, Named(w, 0, p)) == Raises
    requires policy == Either([Required(Scheme(0), r), Scheme(0)])
    ensures var d := Declaration(policy, false); Listed(d, w) == Some(true) && Judged(d, w, Limits(0, 0)) == Error
  {
    StrictOrPlain(r, policy);
    var d, who := Declaration(policy, false), Named(w, 0, p);
    assert Seen(d, w) == Some(0) && Caller(d, w) == Some(who);
    assert Opens(policy.members[1], 0, IsMet(w, who));
    assert OptionVerdict(w, [r], who) == Raises;
    assert OptionVerdict(w, OptionsOf(Ways(policy), 0)[0], who) == Raises;
  }
}
