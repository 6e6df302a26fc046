/**
 Admission is bounded although the check and the push are separate steps.

 `try_push` reads the queue's length, then the in-flight count, then pushes. Between any two of those
 other producers push, the drain callback moves requests from one number to the other with each of
 them briefly in neither, and handlers finish. With P producers a worker still never holds more than
 limit + P requests, and that bound is reached.
 */
module DispatchAdmission {
  import opened Util
  import opened Dispatch

  /** Requests popped and not yet claimed: in neither number `load` adds up. */
  function Unclaimed(s: State): nat {
    if s.drainer.Holding? then 1 else 0
  }

  /** Everything the worker holds: queued, popped and unclaimed, in flight. */
  function Held(s: State): nat {
    |s.requests| + Unclaimed(s) + s.inflight
  }

  /** A producer that will push, or would if the in-flight count fell to `g`. */
  function Committed(g: nat, limit: nat): Producer -> bool {
    (p: Producer) => p.Admitted? || (p.Measured? && p.len + g < limit)
  }

  /** For every level the in-flight count may yet fall to, those who would push on top of it stay within the bound. */
  ghost predicate Inv(s: State) {
    forall g: nat | g <= s.inflight :: WithinAt(s, g)
  }

  ghost predicate WithinAt(s: State, g: nat) {
    |s.requests| + Unclaimed(s) + g + Count(s.producers, Committed(g, s.limit)) <= s.limit + |s.producers|
  }

  lemma {:induction false} CommittedFalls(ps: seq<Producer>, g: nat, h: nat, limit: nat)
    requires g <= h
    ensures Count(ps, Committed(h, limit)) <= Count(ps, Committed(g, limit))
  {
    if ps != [] {
      CommittedFalls(ps[..|ps| - 1], g, h, limit);
    }
  }

  lemma InitialHolds(producers: nat, limit: nat)
    ensures Inv(Initial(producers, limit))
  {
    var s := Initial(producers, limit);
    forall g: nat | g <= s.inflight ensures WithinAt(s, g) {
      CountBounds(s.producers, Committed(g, limit));
    }
  }

  /** Reading the length now: whoever could still be admitted on it, everyone else included, fits. */
  lemma MeasureKeeps(s: State, i: nat, item: nat, g: nat)
    requires Ready(s, Measure(i, item)) && g <= s.inflight && WithinAt(s, g)
    ensures WithinAt(Apply(s, Measure(i, item)), g)
  {
    var t := Apply(s, Measure(i, item));
    CountUpdate(s.producers, i, t.producers[i], Committed(g, s.limit));
    CountBounds(t.producers, Committed(g, s.limit));
  }

  lemma ProducerKeeps(s: State, a: Label, g: nat)
    requires Ready(s, a) && g <= s.inflight && WithinAt(s, g)
    requires a.Decide? || a.PushRequest? || a.PushOther? || a.Swap? || a.StampIt? || a.Write?
    ensures WithinAt(Apply(s, a), g)
  {
    var t := Apply(s, a);
    assert t.producers == s.producers[a.i := t.producers[a.i]];
    CountUpdate(s.producers, a.i, t.producers[a.i], Committed(g, s.limit));
    assert t.limit == s.limit && Unclaimed(t) == Unclaimed(s);
  }

  lemma StepKeeps(s: State, a: Label)
    requires Inv(s) && Ready(s, a)
    ensures Inv(Apply(s, a))
  {
    var t := Apply(s, a);
    forall g: nat | g <= t.inflight ensures WithinAt(t, g) {
      if a.Measure? {
        assert WithinAt(s, g);
        MeasureKeeps(s, a.i, a.item, g);
      } else if a.Drain? || a.Discard? || a.Release? || a.Tick? {
        OthersKeep(s, a, g);
      } else {
        assert WithinAt(s, g);
        ProducerKeeps(s, a, g);
      }
    }
  }

  /** The callback and the handlers only move requests from one number to the next, or let them go. */
  lemma OthersKeep(s: State, a: Label, g: nat)
    requires Inv(s) && Ready(s, a) && (a.Drain? || a.Discard? || a.Release? || a.Tick?)
    requires g <= Apply(s, a).inflight
    ensures WithinAt(Apply(s, a), g)
  {
    var t := Apply(s, a);
    SumFalls(s, a);
    if g <= s.inflight {
      assert WithinAt(s, g);
    } else {
      assert WithinAt(s, s.inflight);
      CommittedFalls(s.producers, s.inflight, g, s.limit);
    }
  }

  lemma SumFalls(s: State, a: Label)
    requires Ready(s, a) && (a.Drain? || a.Discard? || a.Release? || a.Tick?)
    ensures var t := Apply(s, a);
      && t.producers == s.producers && t.limit == s.limit && t.inflight <= s.inflight + 1
      && |t.requests| + Unclaimed(t) <= |s.requests| + Unclaimed(s)
      && (t.inflight > s.inflight ==> |t.requests| + Unclaimed(t) < |s.requests| + Unclaimed(s))
  {}

  lemma {:induction false} RunKeeps(s: State, run: seq<Label>)
    requires Inv(s) && Exec(s, run).Some?
    ensures Inv(Exec(s, run).value) && Exec(s, run).value.limit == s.limit
    ensures |Exec(s, run).value.producers| == |s.producers|
    decreases |run|
  {
    if run != [] {
      StepKeeps(s, run[0]);
      assert Apply(s, run[0]).limit == s.limit && |Apply(s, run[0]).producers| == |s.producers|;
      RunKeeps(Apply(s, run[0]), run[1..]);
    }
  }

  /** With P concurrent producers a worker holds at most limit + P requests, in every reachable state. */
  lemma AdmissionIsBounded(s: State, producers: nat, limit: nat)
    requires Reachable(s, producers, limit)
    ensures Held(s) <= limit + producers
  {
    var run :| Exec(Initial(producers, limit), run) == Some(s);
    InitialHolds(producers, limit);
    RunKeeps(Initial(producers, limit), run);
    assert WithinAt(s, s.inflight);
  }

  // The bound is reached.

  /**
   The first `k` producers are at `q`, the others at `p`; nothing but the producers tells `s` from a row
   at another `k`.
   */
  predicate Row(s: State, k: nat, p: Producer, q: Producer) {
    k <= |s.producers| && s.producers == seq(|s.producers|, i => if i < k then q else p)
  }

  /** A lone producer gets one request in, wherever the callback is. */
  lemma Offers(s: State, n: nat, limit: nat) returns (t: State)
    requires Reachable(s, n, limit) && n > 0 && |s.producers| == n && s.limit == limit
    requires Row(s, 0, Resting, Resting) && |s.requests| + s.inflight < limit
    ensures Reachable(t, n, limit) && Row(t, 0, Resting, Resting) && |t.producers| == n && t.limit == limit
    ensures |t.requests| == |s.requests| + 1 && t.inflight == s.inflight && t.drainer == s.drainer
    ensures !s.notified ==> t.bytes == s.bytes + 1
  {
    t := s;
    ReachableStep(t, Measure(0, 0), n, limit);
    t := Apply(t, Measure(0, 0));
    ReachableStep(t, Decide(0), n, limit);
    t := Apply(t, Decide(0));
    ReachableStep(t, PushRequest(0), n, limit);
    t := Apply(t, PushRequest(0));
    t := WakesUp(t, n, limit);
  }

  lemma WakesUp(s: State, n: nat, limit: nat) returns (t: State)
    requires Reachable(s, n, limit) && n > 0 && |s.producers| == n && s.producers[0] == Pushed
    ensures Reachable(t, n, limit) && t.producers == s.producers[0 := Resting] && t.limit == s.limit
    ensures t.requests == s.requests && t.inflight == s.inflight && t.drainer == s.drainer
    ensures !s.notified ==> t.bytes == s.bytes + 1
  {
    ReachableStep(s, Swap(0), n, limit);
    t := Apply(s, Swap(0));
    if !s.notified {
      ReachableStep(t, StampIt(0), n, limit);
      t := Apply(t, StampIt(0));
      ReachableStep(t, Write(0), n, limit);
      t := Apply(t, Write(0));
    }
  }

  lemma {:induction false} Fills(s: State, n: nat, limit: nat, target: nat) returns (t: State)
    requires Reachable(s, n, limit) && n > 0 && |s.producers| == n && s.limit == limit
    requires Row(s, 0, Resting, Resting) && |s.requests| <= target < limit && s.inflight == 0
    ensures Reachable(t, n, limit) && Row(t, 0, Resting, Resting) && |t.producers| == n && t.limit == limit
    ensures |t.requests| == target && t.inflight == 0 && t.drainer == s.drainer
    decreases target - |s.requests|
  {
    t := s;
    if |s.requests| < target {
      t := Offers(s, n, limit);
      t := Fills(t, n, limit, target);
    }
  }

  /** The callback runs up to its first request and is held there, having popped it and claimed nothing. */
  lemma HoldsOne(n: nat, limit: nat) returns (t: State)
    requires n > 0 && limit > 0
    ensures Reachable(t, n, limit) && Row(t, 0, Resting, Resting) && |t.producers| == n && t.limit == limit
    ensures t.requests == [] && t.inflight == 0 && t.drainer.Holding?
  {
    var s := Initial(n, limit);
    assert Exec(s, []) == Some(s);
    t := Offers(s, n, limit);
    t := Drains(t, n, limit);
  }

  lemma Drains(s: State, n: nat, limit: nat) returns (t: State)
    requires Reachable(s, n, limit) && |s.producers| == n && s.drainer == Asleep && s.bytes > 0
    requires |s.requests| == 1
    ensures Reachable(t, n, limit) && t.producers == s.producers && t.limit == s.limit
    ensures t.requests == [] && t.inflight == s.inflight && t.drainer.Holding?
  {
    t := s;
    while !t.drainer.Holding?
      invariant Reachable(t, n, limit) && t.producers == s.producers && t.limit == s.limit && t.inflight == s.inflight
      invariant t.drainer.Asleep? ==> t.bytes > 0
      invariant t.drainer.Holding? ==> t.requests == []
      invariant !t.drainer.Holding? ==> |t.requests| == 1
      invariant t.drainer in {Asleep, Drained, StampCleared, Popping(Wakeups), Popping(Cancels), Popping(Requests)}
        || t.drainer.Holding?
      decreases Ahead(t.drainer), |t.wakeups| + |t.cancels|
    {
      ReachableStep(t, Drain, n, limit);
      t := Apply(t, Drain);
    }
  }

  function Ahead(d: Drainer): nat {
    match d case Asleep => 6 case Drained => 5 case StampCleared => 4
    case Popping(Wakeups) => 3 case Popping(Cancels) => 2 case Popping(Requests) => 1 case _ => 0
  }

  /** All P producers read the length, then all see room, then all push. */
  lemma AllPush(s: State, n: nat, limit: nat) returns (t: State)
    requires Reachable(s, n, limit) && |s.producers| == n && s.limit == limit
    requires Row(s, 0, Resting, Resting) && |s.requests| + s.inflight < limit
    ensures Reachable(t, n, limit) && |t.requests| == |s.requests| + n && t.inflight == s.inflight
      && t.drainer == s.drainer
  {
    var len := |s.requests|;
    var k := 0;
    t := s;
    while k < n
      invariant k <= n && Reachable(t, n, limit) && |t.producers| == n && t.limit == limit
      invariant Row(t, k, Resting, Measured(len, 0))
      invariant t.requests == s.requests && t.inflight == s.inflight && t.drainer == s.drainer
    {
      ReachableStep(t, Measure(k, 0), n, limit);
      t, k := Apply(t, Measure(k, 0)), k + 1;
    }
    k := 0;
    while k < n
      invariant k <= n && Reachable(t, n, limit) && |t.producers| == n && t.limit == limit
      invariant Row(t, k, Measured(len, 0), Admitted(0))
      invariant t.requests == s.requests && t.inflight == s.inflight && t.drainer == s.drainer
    {
      ReachableStep(t, Decide(k), n, limit);
      t, k := Apply(t, Decide(k)), k + 1;
    }
    k := 0;
    while k < n
      invariant k <= n && Reachable(t, n, limit) && |t.producers| == n
      invariant Row(t, k, Admitted(0), Pushed)
      invariant |t.requests| == len + k && t.inflight == s.inflight && t.drainer == s.drainer
    {
      ReachableStep(t, PushRequest(k), n, limit);
      t, k := Apply(t, PushRequest(k)), k + 1;
    }
  }

  /** No smaller bound holds: for every limit and every number of producers some run reaches limit + P. */
  lemma AdmissionBoundIsReached(producers: nat, limit: nat)
    requires producers > 0 && limit > 0
    ensures exists s :: Reachable(s, producers, limit) && Held(s) == limit + producers
  {
    var s := HoldsOne(producers, limit);
    s := Fills(s, producers, limit, limit - 1);
    s := AllPush(s, producers, limit);
    assert Held(s) == limit + producers;
  }
}
