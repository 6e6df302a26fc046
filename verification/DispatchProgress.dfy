/**
 Everything pushed is popped, once arrivals stop.

 A potential falls with every step that is not an arrival, so a run with `k` arrivals has at most
 `Potential + 31 * k` steps; and a state that can only wait for arrivals has empty queues. What holds
 while arrivals go on is in `DispatchFairness`.
 */
module DispatchProgress {
  import opened Util
  import opened Dispatch
  import Wake = DispatchWake

  /** A producer starting an operation: what the outside decides. */
  predicate Arrival(a: Label) { a.Measure? || a.PushOther? }

  predicate Internal(a: Label) { !Arrival(a) && !a.Tick? }

  /** Steps the callback still takes if it finds nothing. */
  function DrainerCost(d: Drainer): nat {
    match d
    case Asleep => 0
    case Drained => 8
    case StampCleared => 7
    case Popping(Wakeups) => 6
    case Popping(Cancels) => 5
    case Popping(Requests) => 4
    case Holding(_) => 6
    case Checking(Requests) => 3
    case Checking(Wakeups) => 2
    case Checking(Cancels) => 1
    case Rewaking(Pushed) => 12
    case Rewaking(Flipped) => 11
    case Rewaking(_) => 10
  }

  /** Steps a producer still takes, and the answering of the byte it may write. */
  function ProducerCost(p: Producer): nat {
    match p
    case Resting => 0
    case Measured(_, _) => 30
    case Admitted(_) => 29
    case Pushed => 12
    case Flipped => 11
    case Stamped => 10
  }

  /** The callback has finished with queue `c` and has yet to test it: an item here may cost a re-arm. */
  predicate Missed(d: Drainer, c: Channel) {
    match c
    case Wakeups => d == Popping(Cancels) || d == Popping(Requests) || d.Holding? || d == Checking(Requests)
      || d == Checking(Wakeups)
    case Cancels => d == Popping(Requests) || d.Holding? || d.Checking?
    case Requests => d == Checking(Requests)
  }

  function ItemsCost(n: nat, d: Drainer, c: Channel): nat {
    (if c.Requests? then 3 * n else n) + (if Missed(d, c) then 12 * n else 0)
  }

  ghost function ProducersCost(ps: seq<Producer>): nat {
    if ps == [] then 0 else ProducersCost(ps[..|ps| - 1]) + ProducerCost(ps[|ps| - 1])
  }

  ghost function Potential(s: State): nat {
    ItemsCost(|s.wakeups|, s.drainer, Wakeups) + ItemsCost(|s.cancels|, s.drainer, Cancels)
    + ItemsCost(|s.requests|, s.drainer, Requests)
    + ProducersCost(s.producers) + DrainerCost(s.drainer) + 9 * s.bytes + s.inflight
  }

  lemma {:induction false} ProducersCostUpdate(ps: seq<Producer>, i: nat, p: Producer)
    requires i < |ps|
    ensures ProducersCost(ps[i := p]) == ProducersCost(ps) - ProducerCost(ps[i]) + ProducerCost(p)
  {
    var last := |ps| - 1;
    if i == last {
      assert ps[i := p][..last] == ps[..last];
    } else {
      assert ps[i := p][..last] == ps[..last][i := p];
      ProducersCostUpdate(ps[..last], i, p);
    }
  }

  lemma ProducerPays(s: State, a: Label)
    requires Ready(s, a) && Wake.ByProducer(a)
    ensures Internal(a) ==> Potential(Apply(s, a)) < Potential(s)
    ensures Arrival(a) ==> Potential(Apply(s, a)) <= Potential(s) + 30
  {
    var q := Apply(s, a).producers[a.i];
    assert Apply(s, a).producers == s.producers[a.i := q];
    ProducersCostUpdate(s.producers, a.i, q);
    if a.PushOther? {
      assert |Queue(Apply(s, a), a.to)| == |Queue(s, a.to)| + 1;
    }
  }

  lemma PoppingPays(s: State)
    requires s.drainer.Popping? || s.drainer.Holding?
    ensures Potential(Apply(s, Drain)) < Potential(s)
  {
    assert Apply(s, Drain).producers == s.producers && Apply(s, Drain).bytes == s.bytes;
  }

  lemma CheckingPays(s: State)
    requires s.drainer.Checking?
    ensures Potential(Apply(s, Drain)) < Potential(s)
  {
    assert Apply(s, Drain).producers == s.producers;
  }

  lemma DrainerPays(s: State)
    requires Ready(s, Drain) && (s.drainer.Asleep? ==> s.bytes == 1)
    requires s.drainer.Rewaking? ==> s.drainer.step.Pushed? || Wake.Owes(s.drainer.step)
    ensures Potential(Apply(s, Drain)) < Potential(s)
  {
    if s.drainer.Popping? || s.drainer.Holding? {
      PoppingPays(s);
    } else if s.drainer.Checking? {
      CheckingPays(s);
    } else {
      assert Apply(s, Drain).producers == s.producers;
      assert forall c :: !Missed(s.drainer, c) && !Missed(Apply(s, Drain).drainer, c);
    }
  }

  /** Every step but an arrival or the passing of time lowers the potential. */
  lemma StepPays(s: State, a: Label)
    requires Wake.Inv(s) && Ready(s, a)
    ensures Internal(a) ==> Potential(Apply(s, a)) < Potential(s)
    ensures Arrival(a) ==> Potential(Apply(s, a)) <= Potential(s) + 30
    ensures a.Tick? ==> Potential(Apply(s, a)) == Potential(s)
  {
    if Wake.ByProducer(a) {
      ProducerPays(s, a);
    } else if a.Drain? {
      CountBounds(s.producers, Wake.Owes);
      DrainerPays(s);
    } else {
      assert Apply(s, a).producers == s.producers;
    }
  }

  /** Steps other than clock ticks, and arrivals, in a run. */
  function Steps(run: seq<Label>): nat {
    if run == [] then 0 else (if run[0].Tick? then 0 else 1) + Steps(run[1..])
  }

  function Arrivals(run: seq<Label>): nat {
    if run == [] then 0 else (if Arrival(run[0]) then 1 else 0) + Arrivals(run[1..])
  }

  /** However the threads interleave, a run with `k` arrivals stops within `Potential + 31 * k` steps. */
  lemma {:induction false} RunsAreBounded(s: State, run: seq<Label>)
    requires Wake.Inv(s) && Exec(s, run).Some?
    ensures Steps(run) + Potential(Exec(s, run).value) <= Potential(s) + 31 * Arrivals(run)
    decreases |run|
  {
    if run != [] {
      Wake.StepKeeps(s, run[0]);
      StepPays(s, run[0]);
      RunsAreBounded(Apply(s, run[0]), run[1..]);
    }
  }

  /** Nothing left to do but wait for an arrival, for a handler to finish, or for time to pass. */
  ghost predicate AtRest(s: State) {
    forall a: Label | Ready(s, a) :: Arrival(a) || a.Tick? || a.Release?
  }

  /** When the threads come to rest everything pushed has been popped and the loop is asleep with its flag down. */
  lemma RestIsEmpty(s: State, producers: nat, limit: nat)
    requires Reachable(s, producers, limit) && AtRest(s)
    ensures s.wakeups == [] && s.cancels == [] && s.requests == []
    ensures s.drainer == Asleep && s.bytes == 0 && !s.notified && s.stamp == IDLE
    ensures forall i :: 0 <= i < |s.producers| ==> s.producers[i].Resting?
  {
    Wake.ReachableHolds(s, producers, limit);
    assert !Ready(s, Drain);
    forall i | 0 <= i < |s.producers| ensures s.producers[i].Resting? {
      assert !Ready(s, Decide(i)) && !Ready(s, PushRequest(i)) && !Ready(s, Swap(i)) && !Ready(s, StampIt(i))
        && !Ready(s, Write(i));
    }
    CountBounds(s.producers, Wake.Owes);
    CountBounds(s.producers, Wake.IsPushed);
    CountBounds(s.producers, Wake.IsFlipped);
  }
}
