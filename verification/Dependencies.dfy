/**
 Dependency injection (python/oxbrook/_depends.py): a request's dependencies are resolved depth first
 into a cache and an exit stack, the handler runs, and the stack unwinds. What the callables do is the
 world's; functions, values and exceptions are known by number, an exception's number its identity.
 */
module Dependencies {
  import opened Util

  /** A `Depends(...)` argument. */
  datatype Marker = Marker(fn: nat, useCache: bool)

  datatype Exc = Raised(id: nat) | TooDeep | NoYield(fn: nat) | YieldedTwice(fn: nat) | Unencodable(id: nat)

  datatype Result = Ok(value: nat) | Err(exc: Exc)

  /** What calling a dependency comes to: a value, awaited or not, or a generator run to its first yield. */
  datatype Produced = Value(value: nat) | Fails(exc: Exc) | Yields(value: nat) | EndsAtOnce

  /** What a generator does when resumed, or thrown into; `close` is what closing it then raises. */
  datatype Ending = Stops | YieldsAgain(close: Option<Exc>) | Throws(exc: Exc)

  /** The teardown of the generator that the `at`-th call made. */
  datatype Exit = Exit(fn: nat, at: nat)

  datatype World = World(
    declared: nat -> seq<Marker>,
    produce: (nat, seq<nat>, nat) -> Produced,
    finish: (Exit, Option<Exc>) -> Ending,
    handle: seq<nat> -> Result,
    encodes: nat -> Option<Exc>)

  const DEPTH: nat := 20

  /** `_async_exit` and `_sync_exit`: what finishing a generator raises, None if the callback returns. */
  function Finish(w: World, exit: Exit, exc: Option<Exc>): Option<Exc> {
    match w.finish(exit, exc)
    case Stops => None
    case Throws(raised) => if exc == Some(raised) then None else Some(raised)
    case YieldsAgain(close) => if close.Some? then close else Some(YieldedTwice(exit.fn))
  }

  /** The exception in flight after an exit that was given `exc`: no exit callback ever returns true. */
  function After(w: World, exit: Exit, exc: Option<Exc>): Option<Exc> {
    var raised := Finish(w, exit, exc);
    if raised.Some? then raised else exc
  }

  /** One teardown as it ran: which, and the exception it was finished with. */
  datatype Teardown = Teardown(exit: Exit, exc: Option<Exc>)

  /** The exception in flight after the first `i` teardowns. */
  function InFlight(w: World, exc: Option<Exc>, ran: seq<Teardown>, i: nat): Option<Exc>
    requires i <= |ran|
  {
    if i == 0 then exc else After(w, ran[i - 1].exit, ran[i - 1].exc)
  }

  // ----- Setting up -----

  /** What a request has set up: values by dependency, exits, calls made, and the markers set up. */
  datatype Setup = Setup(cache: map<nat, nat>, stack: seq<Exit>, calls: nat, setups: seq<Marker>)

  datatype Step = Step(result: Result, setup: Setup)

  datatype Steps = Steps(values: seq<nat>, failed: Option<Exc>, setup: Setup)

  /** Calling a dependency whose arguments are ready. */
  function Called(w: World, m: Marker, values: seq<nat>, s: Setup): Step {
    var called := s.(calls := s.calls + 1);
    match w.produce(m.fn, values, s.calls)
    case Fails(e) => Step(Err(e), called)
    case EndsAtOnce => Step(Err(NoYield(m.fn)), called)
    case Value(v) => Step(Ok(v), Kept(m, v, called))
    case Yields(v) => Step(Ok(v), Kept(m, v, called.(stack := s.stack + [Exit(m.fn, s.calls)])))
  }

  function Kept(m: Marker, value: nat, s: Setup): Setup {
    s.(setups := s.setups + [m], cache := if m.useCache then s.cache[m.fn := value] else s.cache)
  }

  /** One marker resolved at a depth of nesting: from the cache, or by its declarations and then itself. */
  function Resolution(w: World, m: Marker, depth: nat, s: Setup): Step
    decreases DEPTH + 1 - depth, 0
  {
    if depth > DEPTH then Step(Err(TooDeep), s)
    else if m.useCache && m.fn in s.cache then Step(Ok(s.cache[m.fn]), s)
    else
      var below := Resolutions(w, w.declared(m.fn), depth + 1, s);
      if below.failed.Some? then Step(Err(below.failed.value), below.setup) else Called(w, m, below.values, below.setup)
  }

  /** Several markers, left to right, up to the first that fails. */
  function Resolutions(w: World, markers: seq<Marker>, depth: nat, s: Setup): (r: Steps)
    requires depth <= DEPTH + 1
    ensures r.failed.None? ==> |r.values| == |markers|
    decreases DEPTH + 1 - depth, |markers|
  {
    if markers == [] then Steps([], None, s)
    else
      var before := Resolutions(w, markers[..|markers| - 1], depth, s);
      if before.failed.Some? then before
      else
        var last := Resolution(w, markers[|markers| - 1], depth, before.setup);
        if last.result.Err? then Steps(before.values, Some(last.result.exc), last.setup)
        else Steps(before.values + [last.result.value], None, last.setup)
  }

  /** A failure among the first few is the failure of all. */
  lemma {:induction false} FailureStands(w: World, markers: seq<Marker>, k: nat, depth: nat, s: Setup)
    requires k <= |markers| && depth <= DEPTH + 1 && Resolutions(w, markers[..k], depth, s).failed.Some?
    ensures Resolutions(w, markers, depth, s) == Resolutions(w, markers[..k], depth, s)
    decreases |markers|
  {
    if k == |markers| {
      assert markers[..k] == markers;
    } else {
      assert markers[..|markers| - 1][..k] == markers[..k];
      FailureStands(w, markers[..|markers| - 1], k, depth, s);
    }
  }

  class Scope {
    const w: World
    var cache: map<nat, nat>
    /** The `_TEARDOWN` mark in the source's cache. */
    var teardown: bool
    var stack: seq<Exit>
    var calls: nat
    /** Every dependency set up, and through what kind of marker. */
    ghost var setups: seq<Marker>
    /** Every teardown that ran, in order. */
    ghost var ran: seq<Teardown>

    ghost function Now(): Setup
      reads this
    {
      Setup(cache, stack, calls, setups)
    }

    /** The mark is set exactly when there is something to tear down. */
    ghost predicate Valid()
      reads this
    {
      teardown <==> stack != []
    }

    constructor (w: World)
      ensures Valid() && this.w == w && Now() == Setup(map[], [], 0, []) && ran == []
    {
      this.w := w;
      cache, teardown, stack, calls, setups, ran := map[], false, [], 0, [], [];
    }

    /** `_resolve`. It always returns: a chain of more than twenty declarations is an error. */
    method Resolve(m: Marker, depth: nat) returns (r: Result)
      requires Valid()
      modifies `cache, `teardown, `stack, `calls, `setups
      ensures Valid() && Step(r, Now()) == Resolution(w, m, depth, old(Now()))
      decreases DEPTH + 1 - depth, 0
    {
      if depth > DEPTH {
        return Err(TooDeep);
      }
      if m.useCache && m.fn in cache {
        return Ok(cache[m.fn]);
      }
      var values, failed := ResolveAll(w.declared(m.fn), depth + 1);
      if failed.Some? {
        return Err(failed.value);
      }
      r := Call(m, values);
    }

    /** The loops over what a dependency declares, and over what the handler does. */
    method ResolveAll(markers: seq<Marker>, depth: nat) returns (values: seq<nat>, failed: Option<Exc>)
      requires Valid() && depth <= DEPTH + 1
      modifies `cache, `teardown, `stack, `calls, `setups
      ensures Valid() && Steps(values, failed, Now()) == Resolutions(w, markers, depth, old(Now()))
      decreases DEPTH + 1 - depth, |markers|
    {
      values, failed := [], None;
      for k := 0 to |markers|
        invariant Valid() && Steps(values, None, Now()) == Resolutions(w, markers[..k], depth, old(Now()))
      {
        assert markers[..k + 1][..k] == markers[..k] && markers[..k + 1][k] == markers[k];
        var value := Resolve(markers[k], depth);
        if value.Err? {
          FailureStands(w, markers, k + 1, depth, old(Now()));
          return values, Some(value.exc);
        }
        values := values + [value.value];
      }
      assert markers[..|markers|] == markers;
    }

    /** The rest of `_resolve`: call, first step of a generator, push its exit, cache the value. */
    method Call(m: Marker, values: seq<nat>) returns (r: Result)
      requires Valid()
      modifies `cache, `teardown, `stack, `calls, `setups
      ensures Valid() && Step(r, Now()) == Called(w, m, values, old(Now()))
    {
      var produced := w.produce(m.fn, values, calls);
      calls := calls + 1;
      var value;
      match produced {
        case Fails(e) => return Err(e);
        case EndsAtOnce => return Err(NoYield(m.fn));
        case Yields(v) =>
          stack := stack + [Exit(m.fn, calls - 1)];
          teardown := true;
          value := v;
        case Value(v) =>
          value := v;
      }
      if m.useCache {
        cache := cache[m.fn := value];
      }
      setups := setups + [m];
      r := Ok(value);
    }

    /**
     Leaving the exit stack: every exit once, the last set up first, each finished with the exception in
     flight by then.
     */
    method Unwind(exc: Option<Exc>) returns (out: Option<Exc>)
      requires ran == []
      modifies `stack, `ran
      ensures stack == [] && Unwound(w, old(stack), exc, ran, out)
    {
      out := exc;
      ghost var all := stack;
      while stack != []
        invariant |ran| + |stack| == |all| && stack == all[..|stack|]
        invariant forall i :: 0 <= i < |ran| ==> ran[i].exit == all[|all| - 1 - i]
        invariant Relayed(w, exc, ran) && out == InFlight(w, exc, ran, |ran|)
      {
        var exit := stack[|stack| - 1];
        stack := stack[..|stack| - 1];
        RelayedOn(w, exc, ran, Teardown(exit, out));
        ran := ran + [Teardown(exit, out)];
        var raised := Finish(w, exit, out);
        if raised.Some? {
          out := raised;
        }
      }
    }

    /**
     `bind`: resolve what the handler declares, run it, see that its result encodes while the scope is
     still open, unwind.
     */
    method Serve(dependencies: seq<Marker>, socket: bool) returns (r: Result)
      requires Valid() && Now() == Setup(map[], [], 0, []) && ran == []
      modifies this
      ensures var made := Resolutions(w, dependencies, 0, old(Now()));
        var body := Body(w, made, socket);
        && Unwound(w, made.setup.stack, Failure(body), ran, Failure(r))
        && (r.Ok? ==> r == body)
    {
      ghost var made := Resolutions(w, dependencies, 0, Now());
      var values, failed := ResolveAll(dependencies, 0);
      var result;
      if failed.Some? {
        result := Err(failed.value);
      } else {
        result := w.handle(values);
        if result.Ok? && teardown && !socket && w.encodes(result.value).Some? {
          result := Err(w.encodes(result.value).value);
        }
      }
      assert result == Body(w, made, socket);
      var out := Unwind(Failure(result));
      if result.Err? {
        ErrorsStand(w, Failure(result), ran, |ran|);
      }
      r := if out.Some? then Err(out.value) else result;
    }
  }

  /**
   What the scope's body comes to: a failed dependency, or the handler's result, which must encode if
   there is a teardown to see it and it is no socket.
   */
  function Body(w: World, made: Steps, socket: bool): Result {
    if made.failed.Some? then Err(made.failed.value)
    else
      var r := w.handle(made.values);
      if r.Ok? && made.setup.stack != [] && !socket && w.encodes(r.value).Some? then Err(w.encodes(r.value).value)
      else r
  }

  function Failure(r: Result): Option<Exc> {
    if r.Ok? then None else Some(r.exc)
  }

  /** Each teardown was given the exception in flight by then. */
  ghost predicate Relayed(w: World, exc: Option<Exc>, ran: seq<Teardown>) {
    forall i {:trigger InFlight(w, exc, ran, i)} :: 0 <= i < |ran| ==> ran[i].exc == InFlight(w, exc, ran, i)
  }

  /** `ran` unwinds `exits` from `exc` to `out`: in reverse, each once, each given what is in flight. */
  ghost predicate Unwound(w: World, exits: seq<Exit>, exc: Option<Exc>, ran: seq<Teardown>, out: Option<Exc>) {
    && |ran| == |exits|
    && (forall i :: 0 <= i < |ran| ==> ran[i].exit == exits[|exits| - 1 - i])
    && Relayed(w, exc, ran)
    && out == InFlight(w, exc, ran, |ran|)
  }

  lemma RelayedOn(w: World, exc: Option<Exc>, ran: seq<Teardown>, next: Teardown)
    requires Relayed(w, exc, ran) && next.exc == InFlight(w, exc, ran, |ran|)
    ensures Relayed(w, exc, ran + [next])
    ensures InFlight(w, exc, ran + [next], |ran| + 1) == After(w, next.exit, next.exc)
  {
    var more := ran + [next];
    forall i | 0 <= i < |more|
      ensures more[i].exc == InFlight(w, exc, more, i)
    {
      assert i < |ran| ==> more[i] == ran[i] && ran[i].exc == InFlight(w, exc, ran, i);
      assert 0 < i ==> more[i - 1] == ran[i - 1];
    }
  }

  // ----- What that means -----

  /** A teardown that raised nothing of its own. */
  predicate Clean(w: World, t: Teardown) {
    Finish(w, t.exit, t.exc).None?
  }

  /**
   An error never becomes a success: whatever the exits do, one that is in flight stays in flight, itself
   or as the exception an exit put in its place.
   */
  lemma {:induction false} ErrorsStand(w: World, exc: Option<Exc>, ran: seq<Teardown>, i: nat)
    requires Relayed(w, exc, ran) && i <= |ran| && exc.Some?
    ensures InFlight(w, exc, ran, i).Some?
  {
    if i > 0 {
      ErrorsStand(w, exc, ran, i - 1);
      assert ran[i - 1].exc == InFlight(w, exc, ran, i - 1);
    }
  }

  /** Nothing is in flight after `i` teardowns exactly when the body succeeded and all of them were clean. */
  lemma {:induction false} NothingInFlightIff(w: World, exc: Option<Exc>, ran: seq<Teardown>, i: nat)
    requires Relayed(w, exc, ran) && i <= |ran|
    ensures InFlight(w, exc, ran, i).None? <==> exc.None? && forall t :: t in ran[..i] ==> Clean(w, t)
  {
    if i > 0 {
      NothingInFlightIff(w, exc, ran, i - 1);
      assert ran[i - 1].exc == InFlight(w, exc, ran, i - 1);
      var few, last := ran[..i - 1], ran[i - 1];
      assert ran[..i] == few + [last];
      assert (forall t :: t in few + [last] ==> Clean(w, t)) <==>
        (forall t :: t in few ==> Clean(w, t)) && Clean(w, last) by {
        assert forall t :: t in few ==> t in few + [last];
        assert last in few + [last];
      }
    }
  }

  /**
   A generator is resumed normally exactly when the scope's body succeeded and every teardown inside it
   was clean; the request succeeds exactly when its body did and every teardown was clean.
   */
  lemma ResumedNormallyIff(w: World, exits: seq<Exit>, exc: Option<Exc>, ran: seq<Teardown>, out: Option<Exc>, i: nat)
    requires Unwound(w, exits, exc, ran, out) && i < |ran|
    ensures ran[i].exit == exits[|exits| - 1 - i]
    ensures ran[i].exc.None? <==> exc.None? && forall t :: t in ran[..i] ==> Clean(w, t)
    ensures out.None? <==> exc.None? && forall t :: t in ran ==> Clean(w, t)
  {
    NothingInFlightIff(w, exc, ran, i);
    NothingInFlightIff(w, exc, ran, |ran|);
    assert ran[..|ran|] == ran;
  }

  /** The exception that leaves is the last raised: that of the last unclean teardown, else the body's. */
  lemma {:induction false} LastRaisedLeaves(w: World, exc: Option<Exc>, ran: seq<Teardown>, i: nat)
    requires Relayed(w, exc, ran) && i <= |ran| && forall k :: i <= k < |ran| ==> Clean(w, ran[k])
    ensures InFlight(w, exc, ran, |ran|) == InFlight(w, exc, ran, i)
    decreases |ran| - i
  {
    if i < |ran| {
      LastRaisedLeaves(w, exc, ran, i + 1);
      assert ran[i].exc == InFlight(w, exc, ran, i) && Clean(w, ran[i]);
    }
  }
}
